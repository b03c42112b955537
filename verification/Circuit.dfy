/** gateway/workers/circuit.py: the breaker that suspends submissions to an unhealthy pool. */
module Circuit {
  import opened Common

  datatype Limits = Limits(failureThreshold: int, resetTimeout: int)

  function Threshold(limits: Limits): int {
    Max(1, limits.failureThreshold)
  }

  /** The two fields of the breaker.  Times are integers (microseconds of the UTC clock). */
  datatype Breaker = Breaker(failures: nat, openedAt: Option<int>)

  const CLOSED := Breaker(0, None)

  predicate IsOpen(limits: Limits, b: Breaker, now: int) {
    b.openedAt.Some? && now - b.openedAt.value < limits.resetTimeout
  }

  /** The state after a submission is let through. */
  function LetThrough(b: Breaker): Breaker {
    if b.openedAt.Some? then CLOSED else b
  }

  function AfterFailure(limits: Limits, b: Breaker, now: int): Breaker {
    var failures := b.failures + 1;
    Breaker(failures, if failures >= Threshold(limits) then Some(now) else b.openedAt)
  }

  class CircuitBreaker {
    const limits: Limits
    var failures: nat
    var openedAt: Option<int>

    function View(): Breaker
      reads this
    {
      Breaker(failures, openedAt)
    }

    constructor (limits: Limits)
      ensures View() == CLOSED && this.limits == limits
    {
      this.limits := limits;
      failures := 0;
      openedAt := None;
    }

    method OpenNow(now: int) returns (open: bool)
      ensures open <==> IsOpen(limits, View(), now)
    {
      if openedAt == None {
        return false;
      }
      var elapsed := now - openedAt.value;
      open := elapsed < limits.resetTimeout;
    }

    method Allow(now: int) returns (allowed: bool)
      modifies this
      ensures allowed <==> !IsOpen(limits, old(View()), now)
      ensures View() == if allowed then LetThrough(old(View())) else old(View())
    {
      var open := OpenNow(now);
      if open {
        return false;
      }
      if openedAt != None {
        openedAt := None;
        failures := 0;
      }
      allowed := true;
    }

    method RecordSuccess()
      modifies this
      ensures View() == CLOSED
    {
      failures := 0;
      openedAt := None;
    }

    method RecordFailure(now: int)
      modifies this
      ensures View() == AfterFailure(limits, old(View()), now)
    {
      failures := failures + 1;
      if failures >= Max(1, limits.failureThreshold) {
        openedAt := Some(now);
      }
    }
  }

  // ----- The breaker against its event history -----

  /** What the worker service reports to its breaker, in order. */
  datatype Event = Asked(at: int) | Succeeded | Failed(at: int)

  function React(limits: Limits, b: Breaker, e: Event): Breaker {
    match e
    case Asked(at) => if IsOpen(limits, b, at) then b else LetThrough(b)
    case Succeeded => CLOSED
    case Failed(at) => AfterFailure(limits, b, at)
  }

  function Replay(limits: Limits, history: seq<Event>): Breaker {
    if history == [] then CLOSED
    else React(limits, Replay(limits, history[..|history| - 1]), history[|history| - 1])
  }

  /** Number of failures in a stretch of history. */
  function FailuresIn(history: seq<Event>): nat {
    if history == [] then 0
    else FailuresIn(history[..|history| - 1]) + if history[|history| - 1].Failed? then 1 else 0
  }

  /** Time of the latest failure in a stretch of history. */
  function LatestFailure(history: seq<Event>): Option<int> {
    if history == [] then None
    else if history[|history| - 1].Failed? then Some(history[|history| - 1].at)
    else LatestFailure(history[..|history| - 1])
  }

  /** The breaker is tripped when the failures since the last reset reach the configured threshold,
      or the first one for a threshold below one. */
  predicate Tripped(limits: Limits, history: seq<Event>)
    decreases |history|, 2
  {
    FailuresIn(SinceReset(limits, history)) >= Max(1, limits.failureThreshold)
  }

  /** The last event of the history resets the count: a success, or a submission let through
      once a tripped breaker has cooled down. */
  predicate EndsInReset(limits: Limits, history: seq<Event>)
    requires history != []
    decreases |history|, 0
  {
    var before := history[..|history| - 1];
    var last := history[|history| - 1];
    || last.Succeeded?
    || (&& last.Asked?
        && Tripped(limits, before)
        && var latest := LatestFailure(SinceReset(limits, before));
           latest.Some? && last.at - latest.value >= limits.resetTimeout)
  }

  /** The part of the history after its last reset. */
  function SinceReset(limits: Limits, history: seq<Event>): (tail: seq<Event>)
    decreases |history|, 1
  {
    if history == [] then []
    else if EndsInReset(limits, history) then []
    else SinceReset(limits, history[..|history| - 1]) + [history[|history| - 1]]
  }

  lemma {:induction false} LatestFailureExists(history: seq<Event>)
    ensures LatestFailure(history).Some? <==> FailuresIn(history) > 0
  {
    if history != [] {
      LatestFailureExists(history[..|history| - 1]);
    }
  }

  /** The two fields are exactly: the failures since the last success or cool-down reset, and
      the time of the latest of them once they reach the threshold. */
  lemma {:induction false} BreakerRefinesHistory(limits: Limits, history: seq<Event>)
    ensures var tail := SinceReset(limits, history);
            Replay(limits, history)
            == Breaker(FailuresIn(tail), if Tripped(limits, history) then LatestFailure(tail) else None)
  {
    if history != [] {
      var before, last := history[..|history| - 1], history[|history| - 1];
      BreakerRefinesHistory(limits, before);
      LatestFailureExists(SinceReset(limits, before));
      var extended := SinceReset(limits, before) + [last];
      assert extended[..|extended| - 1] == SinceReset(limits, before);
    }
  }

  /** A submission is refused exactly while a tripped breaker is inside its cool-down. */
  lemma RefusedExactlyInCooldown(limits: Limits, history: seq<Event>, now: int)
    ensures IsOpen(limits, Replay(limits, history), now)
            <==> && Tripped(limits, history)
                 && var latest := LatestFailure(SinceReset(limits, history));
                    latest.Some? && now - latest.value < limits.resetTimeout
  {
    BreakerRefinesHistory(limits, history);
    LatestFailureExists(SinceReset(limits, history));
  }

  function At(e: Event): int {
    if e.Succeeded? then 0 else e.at
  }

  /** Once tripped at time `tripped`, the breaker stays tripped through any later events that
      hold no success and happen inside the cool-down, and every submission among them is
      refused. */
  lemma {:induction false} StaysOpenWithoutSuccess(limits: Limits, history: seq<Event>, later: seq<Event>, tripped: int)
    requires Tripped(limits, history)
    requires LatestFailure(SinceReset(limits, history)) == Some(tripped)
    requires forall i | 0 <= i < |later| ::
               !later[i].Succeeded? && tripped <= later[i].at < tripped + limits.resetTimeout
    ensures Tripped(limits, history + later)
    ensures LatestFailure(SinceReset(limits, history + later)).Some?
    ensures LatestFailure(SinceReset(limits, history + later)).value >= tripped
    ensures forall i | 0 <= i < |later| && later[i].Asked? ::
              IsOpen(limits, Replay(limits, history + later[..i]), later[i].at)
  {
    if later == [] {
      assert history + later == history;
    } else {
      var shorter, last := later[..|later| - 1], later[|later| - 1];
      StaysOpenWithoutSuccess(limits, history, shorter, tripped);
      var whole := history + later;
      assert whole[..|whole| - 1] == history + shorter && whole[|whole| - 1] == last;
      var tail := SinceReset(limits, history + shorter);
      assert (tail + [last])[..|tail|] == tail;
      RefusedExactlyInCooldown(limits, history + shorter, At(last));
      forall i | 0 <= i < |later| && later[i].Asked?
        ensures IsOpen(limits, Replay(limits, history + later[..i]), later[i].at)
      {
        if i < |shorter| {
          assert later[..i] == shorter[..i];
        } else {
          assert later[..i] == shorter;
        }
      }
    }
  }
}
