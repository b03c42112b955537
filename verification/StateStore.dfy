/** gateway/state/redis_store.py: the call record, its three updaters, and the lock-based
    in-memory store that serves as the reference for the optimistic Redis store. */
module StateStore {
  import opened Common

  datatype CallState =
    Received | Validated | PolicyChecked | AwaitingApproval | Executing | Succeeded | Failed | Denied

  datatype Transition = Entry(state: CallState, timestamp: int, error: Option<string>)

  datatype Attempt = Attempt(number: int, startedAt: int, finishedAt: Option<int>, outcome: Option<string>,
                             error: Option<string>)

  datatype Record = Record(callId: string, sessionId: string, toolName: string, arguments: Args,
                           currentState: CallState, transitions: seq<Transition>, attempts: seq<Attempt>,
                           createdAt: int, updatedAt: int)

  // ----- The updaters -----

  datatype Update =
    | Transit(state: CallState, transitError: Option<string>)
    | Finish(number: int, outcome: string, finishError: Option<string>)
    | Begin(number: int)

  /** Position of the last attempt with this number. */
  function LastNumbered(attempts: seq<Attempt>, number: int): (r: Option<nat>)
    ensures r.Some? ==> r.value < |attempts| && attempts[r.value].number == number
    ensures r.Some? ==> forall i | r.value < i < |attempts| :: attempts[i].number != number
    ensures r.None? ==> forall i | 0 <= i < |attempts| :: attempts[i].number != number
  {
    if attempts == [] then None
    else if attempts[|attempts| - 1].number == number then Some(|attempts| - 1)
    else LastNumbered(attempts[..|attempts| - 1], number)
  }

  predicate IsLastNumbered(attempts: seq<Attempt>, number: int, i: nat)
    requires i < |attempts|
  {
    attempts[i].number == number && forall j | i < j < |attempts| :: attempts[j].number != number
  }

  /** One updater, with its clock readings in the order they are drawn; `None` when it raises
      because the attempt to finish does not exist. */
  function Updated(u: Update, first: int, second: int, r: Record): Option<Record> {
    match u
    case Transit(state, error) =>
      Some(r.(currentState := state, updatedAt := first,
              transitions := r.transitions + [Entry(state, first, error)]))
    case Finish(number, outcome, error) =>
      (match LastNumbered(r.attempts, number)
       case None => None
       case Some(i) =>
         Some(r.(updatedAt := second,
                 attempts := r.attempts[i := r.attempts[i].(finishedAt := Some(first), outcome := Some(outcome),
                                                            error := error)])))
    case Begin(number) =>
      Some(r.(updatedAt := second, attempts := r.attempts + [Attempt(number, first, None, None, None)]))
  }

  // ----- The reference store -----

  datatype Memory = Memory(calls: map<string, Record>, sessions: map<string, seq<string>>)

  const EMPTY := Memory(map[], map[])

  function SessionCalls(sessions: map<string, seq<string>>, sessionId: string): seq<string> {
    if sessionId in sessions then sessions[sessionId] else []
  }

  function Index(sessions: map<string, seq<string>>, r: Record): map<string, seq<string>> {
    sessions[r.sessionId := SessionCalls(sessions, r.sessionId) + [r.callId]]
  }

  datatype Op = Create(record: Record) | Change(callId: string, update: Update, first: int, second: int)

  /** One serialised operation; `None` when it raises, leaving the store as it was. */
  function Perform(m: Memory, op: Op): Option<Memory> {
    match op
    case Create(r) => Some(Memory(m.calls[r.callId := r], Index(m.sessions, r)))
    case Change(id, u, first, second) =>
      if id !in m.calls then None
      else match Updated(u, first, second, m.calls[id])
           case None => None
           case Some(r) => Some(m.(calls := m.calls[id := r]))
  }

  /** The serial execution of a log; `None` when one of its operations raises. */
  function Replay(log: seq<Op>): Option<Memory> {
    if log == [] then Some(EMPTY)
    else match Replay(log[..|log| - 1])
         case None => None
         case Some(m) => Perform(m, log[|log| - 1])
  }

  // ----- Sessions -----

  /** The calls created in a session, in order. */
  function CreatedIn(log: seq<Op>, sessionId: string): seq<string> {
    if log == [] then []
    else CreatedIn(log[..|log| - 1], sessionId)
         + match log[|log| - 1]
           case Create(r) => if r.sessionId == sessionId then [r.callId] else []
           case _ => []
  }

  /** A session lists its calls in the order of their creation. */
  lemma {:induction false} SessionsAreInOrder(log: seq<Op>, sessionId: string)
    requires Replay(log).Some?
    ensures SessionCalls(Replay(log).value.sessions, sessionId) == CreatedIn(log, sessionId)
  {
    if log != [] {
      SessionsAreInOrder(log[..|log| - 1], sessionId);
    }
  }

  // ----- Calls are independent -----

  /** The record of one call after these operations, as the fold of those on it. */
  function CellAfter(log: seq<Op>, id: string): Option<Record> {
    if log == [] then None
    else
      var before := CellAfter(log[..|log| - 1], id);
      match log[|log| - 1]
      case Create(r) => if r.callId == id then Some(r) else before
      case Change(callId, u, first, second) =>
        if callId != id || before.None? then before else Updated(u, first, second, before.value)
  }

  function OpId(op: Op): string {
    match op case Create(r) => r.callId case Change(callId, _, _, _) => callId
  }

  /** The operations on one call. */
  function Own(log: seq<Op>, id: string): seq<Op> {
    if log == [] then []
    else Own(log[..|log| - 1], id) + if OpId(log[|log| - 1]) == id then [log[|log| - 1]] else []
  }

  lemma CellStep(log: seq<Op>, op: Op, id: string)
    ensures CellAfter(log + [op], id) == if OpId(op) != id then CellAfter(log, id)
                                         else match op
                                              case Create(r) => Some(r)
                                              case Change(_, u, first, second) =>
                                                match CellAfter(log, id)
                                                case None => None
                                                case Some(r) => Updated(u, first, second, r)
  {
    assert (log + [op])[..|log|] == log;
  }

  /** A call's record depends on its own operations alone. */
  lemma {:induction false} OwnOperationsDecide(log: seq<Op>, id: string)
    ensures CellAfter(Own(log, id), id) == CellAfter(log, id)
  {
    if log != [] {
      var before, op := log[..|log| - 1], log[|log| - 1];
      OwnOperationsDecide(before, id);
      assert log == before + [op];
      CellStep(before, op, id);
      CellStep(Own(before, id), op, id);
      assert Own(log, id) == if OpId(op) == id then Own(before, id) + [op] else Own(before, id);
      hide CellAfter, Updated;
    }
  }

  /** The serial execution of a log leaves in every call's cell the fold of the operations on it. */
  lemma {:induction false} ReplayIsPerCall(log: seq<Op>, id: string)
    requires Replay(log).Some?
    ensures var m := Replay(log).value;
            CellAfter(log, id) == if id in m.calls then Some(m.calls[id]) else None
  {
    if log != [] {
      ReplayIsPerCall(log[..|log| - 1], id);
    }
  }

  class InMemoryStateStore {
    var calls: map<string, Record>
    var sessions: map<string, seq<string>>

    function View(): Memory
      reads this
    {
      Memory(calls, sessions)
    }

    constructor ()
      ensures View() == EMPTY
    {
      calls, sessions := map[], map[];
    }

    method CreateCall(record: Record)
      modifies this
      ensures Perform(old(View()), Create(record)) == Some(View())
      ensures calls == old(calls)[record.callId := record]
      ensures var ids := if record.sessionId in old(sessions) then old(sessions)[record.sessionId] else [];
              sessions == old(sessions)[record.sessionId := ids + [record.callId]]
    {
      calls := calls[record.callId := record];
      var ids := if record.sessionId in sessions then sessions[record.sessionId] else [];
      sessions := sessions[record.sessionId := ids + [record.callId]];
    }

    method Transition(callId: string, state: CallState, error: Option<string>, timestamp: int) returns (ok: bool)
      modifies this
      ensures ok <==> Perform(old(View()), Change(callId, Transit(state, error), timestamp, timestamp)).Some?
      ensures ok ==> Perform(old(View()), Change(callId, Transit(state, error), timestamp, timestamp)) == Some(View())
      ensures ok <==> callId in old(calls)
      ensures ok ==> calls == old(calls)[callId := old(calls)[callId].(
                       currentState := state, updatedAt := timestamp,
                       transitions := old(calls)[callId].transitions + [Entry(state, timestamp, error)])]
      ensures !ok ==> View() == old(View())
    {
      if callId !in calls {
        return false;
      }
      var record := calls[callId];
      record := record.(currentState := state);
      record := record.(updatedAt := timestamp);
      record := record.(transitions := record.transitions + [Entry(state, timestamp, error)]);
      calls := calls[callId := record];
      ok := true;
    }

    /** Searches the attempts from the last one backwards. */
    method FinishAttempt(callId: string, number: int, outcome: string, error: Option<string>, first: int, second: int)
      returns (ok: bool)
      modifies this
      ensures ok <==> Perform(old(View()), Change(callId, Finish(number, outcome, error), first, second)).Some?
      ensures ok ==> Perform(old(View()), Change(callId, Finish(number, outcome, error), first, second)) == Some(View())
      ensures ok <==> && callId in old(calls)
                      && var attempts := old(calls)[callId].attempts;
                         exists i | 0 <= i < |attempts| :: attempts[i].number == number
      ensures ok ==> exists i | 0 <= i < |old(calls)[callId].attempts| ::
                && IsLastNumbered(old(calls)[callId].attempts, number, i)
                && calls == old(calls)[callId := old(calls)[callId].(
                     updatedAt := second,
                     attempts := old(calls)[callId].attempts[i := Attempt(
                       number, old(calls)[callId].attempts[i].startedAt, Some(first), Some(outcome), error)])]
      ensures !ok ==> View() == old(View())
    {
      if callId !in calls {
        return false;
      }
      var record := calls[callId];
      var i := |record.attempts|;
      while i > 0
        invariant 0 <= i <= |record.attempts|
        invariant LastNumbered(record.attempts, number) == LastNumbered(record.attempts[..i], number)
      {
        i := i - 1;
        assert record.attempts[..i + 1][..i] == record.attempts[..i];
        if record.attempts[i].number == number {
          var item := record.attempts[i].(finishedAt := Some(first), outcome := Some(outcome), error := error);
          record := record.(attempts := record.attempts[i := item], updatedAt := second);
          assert IsLastNumbered(old(calls)[callId].attempts, number, i);
          calls := calls[callId := record];
          return true;
        }
      }
      ok := false;
    }

    method StartAttempt(callId: string, number: int, first: int, second: int) returns (ok: bool)
      modifies this
      ensures ok <==> Perform(old(View()), Change(callId, Begin(number), first, second)).Some?
      ensures ok ==> Perform(old(View()), Change(callId, Begin(number), first, second)) == Some(View())
      ensures ok <==> callId in old(calls)
      ensures ok ==> calls == old(calls)[callId := old(calls)[callId].(
                       updatedAt := second,
                       attempts := old(calls)[callId].attempts + [Attempt(number, first, None, None, None)])]
      ensures !ok ==> View() == old(View())
    {
      if callId !in calls {
        return false;
      }
      var record := calls[callId];
      record := record.(attempts := record.attempts + [Attempt(number, first, None, None, None)]);
      record := record.(updatedAt := second);
      calls := calls[callId := record];
      ok := true;
    }
  }

  // ----- Histories in time order -----

  predicate Chronological(transitions: seq<Transition>) {
    forall i, j | 0 <= i < j < |transitions| :: transitions[i].timestamp <= transitions[j].timestamp
  }

  /** The history is in time order, ends no later than `limit`, and ends in the current state. */
  predicate Timely(r: Record, limit: int) {
    && r.transitions != []
    && Chronological(r.transitions)
    && r.transitions[|r.transitions| - 1].timestamp <= limit
    && r.currentState == r.transitions[|r.transitions| - 1].state
  }

  lemma UpdateKeepsTimely(u: Update, first: int, second: int, r: Record, limit: int)
    requires Timely(r, limit) && limit <= first <= second && Updated(u, first, second, r).Some?
    ensures Timely(Updated(u, first, second, r).value, second)
  {
  }
}
