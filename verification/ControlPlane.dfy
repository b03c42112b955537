/** gateway/control_plane/repository.py: the durable call summaries, attempt history and
    approvals.  A transaction either commits as a whole or leaves the database unchanged. */
module ControlPlane {
  import opened Common
  import opened StateStore

  datatype Summary = Summary(sessionId: string, toolName: string, arguments: Args, currentState: CallState,
                             createdAt: int, updatedAt: int)

  datatype Row = Row(callId: string, attempt: Attempt)

  datatype Resolution = Resolution(decision: string, approver: string, reason: string, decidedAt: int)

  datatype Approval = Approval(callId: string, resolution: Option<Resolution>)

  datatype Db = Db(summaries: map<string, Summary>, rows: seq<Row>, approvals: map<string, Approval>)

  // ----- Attempt history -----

  /** The constraint that a call has one row per attempt number. */
  predicate Distinct(attempts: seq<Attempt>) {
    forall i, j | 0 <= i < j < |attempts| :: attempts[i].number != attempts[j].number
  }

  predicate Ascending(attempts: seq<Attempt>) {
    forall i | 1 <= i < |attempts| :: attempts[i - 1].number <= attempts[i].number
  }

  function RowsFor(callId: string, attempts: seq<Attempt>): seq<Row> {
    seq(|attempts|, i requires 0 <= i < |attempts| => Row(callId, attempts[i]))
  }

  function Without(rows: seq<Row>, callId: string): seq<Row> {
    if rows == [] then []
    else if rows[0].callId == callId then Without(rows[1..], callId)
    else [rows[0]] + Without(rows[1..], callId)
  }

  function Selected(rows: seq<Row>, callId: string): seq<Attempt> {
    if rows == [] then []
    else if rows[0].callId == callId then [rows[0].attempt] + Selected(rows[1..], callId)
    else Selected(rows[1..], callId)
  }

  /** The summary of a record; an existing one keeps its creation time. */
  function SummaryOf(db: Db, r: Record): Summary {
    Summary(r.sessionId, r.toolName, r.arguments, r.currentState,
            if r.callId in db.summaries then db.summaries[r.callId].createdAt else r.createdAt, r.updatedAt)
  }

  /** `upsert_tool_call`; `None` when the constraint on attempt numbers rolls it back. */
  function Upserted(db: Db, r: Record): Option<Db> {
    if !Distinct(r.attempts) then None
    else Some(db.(summaries := db.summaries[r.callId := SummaryOf(db, r)],
                  rows := Without(db.rows, r.callId) + RowsFor(r.callId, r.attempts)))
  }

  function Insert(a: Attempt, ordered: seq<Attempt>): seq<Attempt> {
    if ordered == [] then [a]
    else if a.number <= ordered[0].number then [a] + ordered
    else [ordered[0]] + Insert(a, ordered[1..])
  }

  function Ordered(attempts: seq<Attempt>): seq<Attempt> {
    if attempts == [] then [] else Insert(attempts[0], Ordered(attempts[1..]))
  }

  /** `list_attempts`. */
  function Listed(db: Db, callId: string): seq<Attempt> {
    Ordered(Selected(db.rows, callId))
  }

  lemma {:induction false} InsertKeepsOrder(a: Attempt, ordered: seq<Attempt>)
    requires Ascending(ordered)
    ensures Ascending(Insert(a, ordered))
    ensures Insert(a, ordered)[0].number
            == if ordered != [] && ordered[0].number < a.number then ordered[0].number else a.number
  {
    if ordered != [] && a.number > ordered[0].number {
      InsertKeepsOrder(a, ordered[1..]);
    }
  }

  lemma {:induction false} InsertAdds(a: Attempt, ordered: seq<Attempt>)
    ensures multiset(Insert(a, ordered)) == multiset{a} + multiset(ordered)
  {
    if ordered != [] && a.number > ordered[0].number {
      InsertAdds(a, ordered[1..]);
      assert ordered == [ordered[0]] + ordered[1..];
    }
  }

  /** Attempts are listed by number, each exactly once. */
  lemma {:induction false} OrderedSorts(attempts: seq<Attempt>)
    ensures Ascending(Ordered(attempts)) && multiset(Ordered(attempts)) == multiset(attempts)
  {
    if attempts != [] {
      OrderedSorts(attempts[1..]);
      InsertKeepsOrder(attempts[0], Ordered(attempts[1..]));
      InsertAdds(attempts[0], Ordered(attempts[1..]));
      assert attempts == [attempts[0]] + attempts[1..];
    }
  }

  lemma {:induction false} OrderedKeepsAscending(attempts: seq<Attempt>)
    requires Ascending(attempts)
    ensures Ordered(attempts) == attempts
  {
    if attempts != [] {
      OrderedKeepsAscending(attempts[1..]);
      assert attempts == [attempts[0]] + attempts[1..];
    }
  }

  lemma {:induction false} SelectedAppends(a: seq<Row>, b: seq<Row>, callId: string)
    ensures Selected(a + b, callId) == Selected(a, callId) + Selected(b, callId)
  {
    if a == [] {
      assert a + b == b;
    } else {
      assert (a + b)[1..] == a[1..] + b;
      SelectedAppends(a[1..], b, callId);
    }
  }

  lemma {:induction false} WithoutAppends(a: seq<Row>, b: seq<Row>, callId: string)
    ensures Without(a + b, callId) == Without(a, callId) + Without(b, callId)
  {
    if a == [] {
      assert a + b == b;
    } else {
      assert (a + b)[1..] == a[1..] + b;
      WithoutAppends(a[1..], b, callId);
    }
  }

  lemma {:induction false} WithoutSelects(rows: seq<Row>, callId: string, other: string)
    ensures Selected(Without(rows, callId), other) == if other == callId then [] else Selected(rows, other)
    ensures Without(Without(rows, callId), callId) == Without(rows, callId)
  {
    if rows != [] {
      WithoutSelects(rows[1..], callId, other);
    }
  }

  lemma {:induction false} OwnRows(callId: string, attempts: seq<Attempt>, other: string)
    ensures Selected(RowsFor(callId, attempts), other) == if other == callId then attempts else []
    ensures Without(RowsFor(callId, attempts), callId) == []
  {
    if attempts != [] {
      assert RowsFor(callId, attempts)[1..] == RowsFor(callId, attempts[1..]);
      OwnRows(callId, attempts[1..], other);
    }
  }

  lemma UpsertSelects(db: Db, r: Record, id: string)
    requires Upserted(db, r).Some?
    ensures Selected(Upserted(db, r).value.rows, id) == if id == r.callId then r.attempts else Selected(db.rows, id)
  {
    SelectedAppends(Without(db.rows, r.callId), RowsFor(r.callId, r.attempts), id);
    WithoutSelects(db.rows, r.callId, id);
    OwnRows(r.callId, r.attempts, id);
  }

  /** An upsert replaces the call's history, whatever it was, and no other call's. */
  lemma UpsertReplacesHistory(db: Db, r: Record, other: string)
    requires Upserted(db, r).Some? && other != r.callId
    ensures var after := Upserted(db, r).value;
            && multiset(Listed(after, r.callId)) == multiset(r.attempts)
            && Ascending(Listed(after, r.callId))
            && (Ascending(r.attempts) ==> Listed(after, r.callId) == r.attempts)
            && Listed(after, other) == Listed(db, other)
  {
    UpsertSelects(db, r, r.callId);
    UpsertSelects(db, r, other);
    OrderedSorts(r.attempts);
    if Ascending(r.attempts) {
      OrderedKeepsAscending(r.attempts);
    }
  }

  /** Rewriting a call's rows twice is rewriting them once. */
  lemma RewriteTwice(rows: seq<Row>, callId: string, first: seq<Attempt>)
    ensures Without(Without(rows, callId) + RowsFor(callId, first), callId) == Without(rows, callId)
  {
    WithoutAppends(Without(rows, callId), RowsFor(callId, first), callId);
    WithoutSelects(rows, callId, callId);
    OwnRows(callId, first, callId);
  }

  /** The last upsert of a call determines its rows and its summary, except that the summary
      keeps the creation time of the first. */
  lemma LastUpsertWins(db: Db, first: Record, second: Record)
    requires first.callId == second.callId && Upserted(db, first).Some? && Upserted(db, second).Some?
    ensures var once, twice := Upserted(db, second).value, Upserted(Upserted(db, first).value, second);
            && twice.Some?
            && twice.value.rows == once.rows
            && var id := second.callId;
               && twice.value.summaries[id].(createdAt := 0) == once.summaries[id].(createdAt := 0)
               && twice.value.summaries[id].createdAt == Upserted(db, first).value.summaries[id].createdAt
  {
    RewriteTwice(db.rows, first.callId, first.attempts);
    hide Without, RowsFor, Distinct;
  }

  // ----- Approvals -----

  /** `resolve_approval`: only a pending approval is resolved. */
  function Resolved(db: Db, id: string, r: Resolution): Db {
    if id in db.approvals && db.approvals[id].resolution.None?
    then db.(approvals := db.approvals[id := db.approvals[id].(resolution := Some(r))])
    else db
  }

  function ResolvedAll(db: Db, attempts: seq<(string, Resolution)>): Db {
    if attempts == [] then db
    else var (id, r) := attempts[|attempts| - 1];
         Resolved(ResolvedAll(db, attempts[..|attempts| - 1]), id, r)
  }

  /** When resolutions follow one another, the first of a pending approval stands for ever,
      whatever is tried later and for whichever approvals; without one it stays pending. */
  lemma {:induction false} FirstResolutionStands(db: Db, attempts: seq<(string, Resolution)>, id: string, first: nat)
    requires id in db.approvals && db.approvals[id].resolution.None? && first <= |attempts|
    requires forall i | 0 <= i < first :: attempts[i].0 != id
    requires first < |attempts| ==> attempts[first].0 == id
    ensures id in ResolvedAll(db, attempts).approvals
    ensures ResolvedAll(db, attempts).approvals[id].resolution
            == if first < |attempts| then Some(attempts[first].1) else None
  {
    if attempts != [] {
      var before := attempts[..|attempts| - 1];
      if first <= |before| {
        FirstResolutionStands(db, before, id, first);
      } else {
        FirstResolutionStands(db, before, id, |before|);
      }
    }
  }

  // ----- Concurrent resolutions of one approval -----

  /** One call of `resolve_approval`: a transaction that reads the row without locking it, and
      commits its resolution if it has read a pending one. */
  datatype Phase = Begun | Loaded(pending: bool) | Committed(resolved: bool)

  datatype Resolver = Resolver(resolution: Resolution, phase: Phase)

  /** The row's resolution; `writers` are the transactions that set it, in commit order. */
  datatype Contest = Contest(standing: Option<Resolution>, resolvers: seq<Resolver>, writers: seq<nat>)

  datatype Move = Enter(resolution: Resolution) | Load(r: nat) | Commit(r: nat)

  const PENDING := Contest(None, [], [])

  function SetPhase(s: Contest, r: nat, p: Phase): Contest
    requires r < |s.resolvers|
  {
    s.(resolvers := s.resolvers[r := s.resolvers[r].(phase := p)])
  }

  function Moved(s: Contest, move: Move): Contest {
    match move
    case Enter(resolution) => s.(resolvers := s.resolvers + [Resolver(resolution, Begun)])
    case Load(r) =>
      if r < |s.resolvers| && s.resolvers[r].phase.Begun? then SetPhase(s, r, Loaded(s.standing.None?)) else s
    case Commit(r) =>
      if !(r < |s.resolvers| && s.resolvers[r].phase.Loaded?) then s
      else if !s.resolvers[r].phase.pending then SetPhase(s, r, Committed(false))
      else SetPhase(s, r, Committed(true)).(standing := Some(s.resolvers[r].resolution), writers := s.writers + [r])
  }

  function Played(moves: seq<Move>): Contest {
    if moves == [] then PENDING else Moved(Played(moves[..|moves| - 1]), moves[|moves| - 1])
  }

  /** This transaction has read a pending approval and not committed yet. */
  predicate Armed(s: Contest, r: nat) {
    r < |s.resolvers| && s.resolvers[r].phase == Loaded(true)
  }

  /** The standing resolution is that of the last transaction that committed one; those told
      `True` are exactly the ones that did, each once. */
  predicate LastWriterStands(s: Contest) {
    && (forall i | 0 <= i < |s.writers| ::
          s.writers[i] < |s.resolvers| && s.resolvers[s.writers[i]].phase == Committed(true))
    && (forall i, j | 0 <= i < j < |s.writers| :: s.writers[i] != s.writers[j])
    && (forall r | 0 <= r < |s.resolvers| && s.resolvers[r].phase == Committed(true) :: r in s.writers)
    && s.standing == if s.writers == [] then None else Some(s.resolvers[s.writers[|s.writers| - 1]].resolution)
  }

  lemma WriteKeepsLastWriter(s: Contest, w: nat)
    requires LastWriterStands(s) && Armed(s, w)
    ensures LastWriterStands(Moved(s, Commit(w)))
  {
    var s' := Moved(s, Commit(w));
    assert w !in s.writers && s'.writers == s.writers + [w] && s'.writers[|s.writers|] == w;
    forall r | 0 <= r < |s'.resolvers| && s'.resolvers[r].phase == Committed(true) ensures r in s'.writers {
      assert r != w ==> s.resolvers[r] == s'.resolvers[r];
    }
  }

  lemma OtherMovesKeepLastWriter(s: Contest, move: Move)
    requires LastWriterStands(s) && !(move.Commit? && Armed(s, move.r))
    ensures LastWriterStands(Moved(s, move))
  {
    var s' := Moved(s, move);
    assert s'.writers == s.writers && s'.standing == s.standing;
    forall r | 0 <= r < |s'.resolvers| && s'.resolvers[r].phase == Committed(true) ensures r in s'.writers {
      assert r < |s.resolvers| && s.resolvers[r] == s'.resolvers[r];
    }
  }

  /** Whatever the interleaving, the last committed resolution stands. */
  lemma {:induction false} ResolutionsAreLastWriterWins(moves: seq<Move>)
    ensures LastWriterStands(Played(moves))
  {
    if moves != [] {
      ResolutionsAreLastWriterWins(moves[..|moves| - 1]);
      var s, move := Played(moves[..|moves| - 1]), moves[|moves| - 1];
      if move.Commit? && Armed(s, move.r) {
        WriteKeepsLastWriter(s, move.r);
      } else {
        OtherMovesKeepLastWriter(s, move);
      }
    }
  }

  /** No transaction reads the approval as pending while another that did is uncommitted. */
  predicate Disjoint(s: Contest) {
    forall q, r | 0 <= q < r < |s.resolvers| :: !(Armed(s, q) && Armed(s, r))
  }

  /** At most one transaction has committed a resolution, and none can any more once one has. */
  predicate FirstStands(s: Contest) {
    && |s.writers| <= 1
    && (|s.writers| == 1 ==> forall r | 0 <= r < |s.resolvers| :: !Armed(s, r))
  }

  lemma MoveKeepsFirst(s: Contest, move: Move)
    requires LastWriterStands(s) && FirstStands(s) && Disjoint(s)
    ensures FirstStands(Moved(s, move))
  {
    var s' := Moved(s, move);
    if move.Commit? && Armed(s, move.r) {
      forall r | 0 <= r < |s'.resolvers| ensures !Armed(s', r) {
        assert Armed(s', r) ==> Armed(s, r);
      }
    } else {
      forall r | 0 <= r < |s'.resolvers| && |s'.writers| == 1 ensures !Armed(s', r) {
        if r < |s.resolvers| { assert !Armed(s, r); }
      }
    }
  }

  lemma {:induction false} DisjointKeepsFirst(moves: seq<Move>)
    requires forall n | 0 <= n <= |moves| :: Disjoint(Played(moves[..n]))
    ensures FirstStands(Played(moves))
  {
    if moves != [] {
      var before := moves[..|moves| - 1];
      forall n | 0 <= n <= |before| ensures Disjoint(Played(before[..n])) {
        assert before[..n] == moves[..n];
      }
      DisjointKeepsFirst(before);
      ResolutionsAreLastWriterWins(before);
      assert before[..|before|] == before;
      MoveKeepsFirst(Played(before), moves[|moves| - 1]);
    }
  }

  /** Two armed transactions, once everything has committed, have both resolved the approval. */
  lemma {:induction false} ArmedCommits(moves: seq<Move>, n: nat, r: nat)
    requires n <= |moves| && Armed(Played(moves[..n]), r)
    ensures Armed(Played(moves), r)
            || (r < |Played(moves).resolvers| && Played(moves).resolvers[r].phase == Committed(true))
    decreases |moves|
  {
    if n == |moves| {
      assert moves[..n] == moves;
    } else {
      assert moves[..|moves| - 1][..n] == moves[..n];
      ArmedCommits(moves[..|moves| - 1], n, r);
    }
  }

  /** The first resolution stands, exactly: of a finished contest at most one transaction was
      told `True`, so that its resolution was the first and stands, if and only if no two had
      read the approval as pending at the same time. */
  lemma FirstStandsExactlyWhenDisjoint(moves: seq<Move>)
    requires forall r | 0 <= r < |Played(moves).resolvers| :: Played(moves).resolvers[r].phase.Committed?
    ensures |Played(moves).writers| <= 1 <==> forall n | 0 <= n <= |moves| :: Disjoint(Played(moves[..n]))
  {
    hide Moved, Played;
    ResolutionsAreLastWriterWins(moves);
    var s := Played(moves);
    if n, q, r :| 0 <= n <= |moves| && 0 <= q < r < |Played(moves[..n]).resolvers|
                  && Armed(Played(moves[..n]), q) && Armed(Played(moves[..n]), r) {
      ArmedCommits(moves, n, q);
      ArmedCommits(moves, n, r);
      assert q in s.writers && r in s.writers;
    } else {
      forall n | 0 <= n <= |moves| ensures Disjoint(Played(moves[..n])) {}
      DisjointKeepsFirst(moves);
    }
  }

  /** Two overlapping calls: both are told `True`, and the second overwrites the first. */
  lemma BothResolve(first: Resolution, second: Resolution)
    ensures var s := Played([Enter(first), Enter(second), Load(0), Load(1), Commit(0), Commit(1)]);
            && s.standing == Some(second)
            && s.resolvers == [Resolver(first, Committed(true)), Resolver(second, Committed(true))]
  {
    var moves := [Enter(first), Enter(second), Load(0), Load(1), Commit(0), Commit(1)];
    assert moves[..5][..4] == moves[..4] && moves[..4][..3] == moves[..3] && moves[..3][..2] == moves[..2];
    assert moves[..2][..1] == moves[..1] && moves[..1][..0] == [];
    assert Played(moves[..1]).resolvers == [Resolver(first, Begun)];
    assert Played(moves[..2]).resolvers == [Resolver(first, Begun), Resolver(second, Begun)];
    assert Played(moves[..3]).resolvers == [Resolver(first, Loaded(true)), Resolver(second, Begun)];
    assert Played(moves[..4]).resolvers == [Resolver(first, Loaded(true)), Resolver(second, Loaded(true))];
    assert Played(moves[..5]).resolvers == [Resolver(first, Committed(true)), Resolver(second, Loaded(true))];
  }

  /** The repository with its transactions one after another. */
  class Repository {
    var db: Db

    constructor ()
      ensures db == Db(map[], [], map[])
    {
      db := Db(map[], [], map[]);
    }

    method UpsertToolCall(record: Record) returns (committed: bool)
      modifies this
      ensures committed <==> Upserted(old(db), record).Some?
      ensures db == if committed then Upserted(old(db), record).value else old(db)
      ensures committed <==> forall i, j | 0 <= i < j < |record.attempts| ::
                record.attempts[i].number != record.attempts[j].number
      ensures committed ==>
                && db.summaries.Keys == old(db).summaries.Keys + {record.callId}
                && (forall id | id in old(db).summaries && id != record.callId ::
                      db.summaries[id] == old(db).summaries[id])
                && var summary := db.summaries[record.callId];
                   && summary.sessionId == record.sessionId && summary.toolName == record.toolName
                   && summary.arguments == record.arguments && summary.currentState == record.currentState
                   && summary.updatedAt == record.updatedAt
                   && summary.createdAt == if record.callId in old(db).summaries
                                           then old(db).summaries[record.callId].createdAt else record.createdAt
    {
      var summary := Summary(record.sessionId, record.toolName, record.arguments, record.currentState,
                             record.createdAt, record.updatedAt);
      if record.callId in db.summaries {
        summary := summary.(createdAt := db.summaries[record.callId].createdAt);
      }
      var rows := Without(db.rows, record.callId);
      ghost var kept := rows;
      for i := 0 to |record.attempts|
        invariant rows == kept + RowsFor(record.callId, record.attempts[..i])
        invariant Distinct(record.attempts[..i])
      {
        if exists j | 0 <= j < i :: record.attempts[j].number == record.attempts[i].number {
          return false;
        }
        rows := rows + [Row(record.callId, record.attempts[i])];
      }
      assert record.attempts[..|record.attempts|] == record.attempts;
      db := db.(summaries := db.summaries[record.callId := summary], rows := rows);
      committed := true;
    }

    method ListAttempts(callId: string) returns (attempts: seq<Attempt>)
      ensures attempts == Listed(db, callId)
      ensures Ascending(attempts) && multiset(attempts) == multiset(Selected(db.rows, callId))
    {
      OrderedSorts(Selected(db.rows, callId));
      attempts := Ordered(Selected(db.rows, callId));
    }

    /** An approval identifier that is already present violates the primary key. */
    method CreateApproval(id: string, callId: string) returns (committed: bool)
      modifies this
      ensures committed <==> id !in old(db).approvals
      ensures db == old(db).(approvals := if committed then old(db).approvals[id := Approval(callId, None)]
                                          else old(db).approvals)
    {
      if id in db.approvals {
        return false;
      }
      db := db.(approvals := db.approvals[id := Approval(callId, None)]);
      committed := true;
    }

    method ResolveApproval(id: string, decision: string, approver: string, reason: string, decidedAt: int)
      returns (resolved: bool)
      modifies this
      ensures resolved <==> id in old(db).approvals && old(db).approvals[id].resolution.None?
      ensures resolved ==> db.approvals == old(db).approvals[id :=
                Approval(old(db).approvals[id].callId, Some(Resolution(decision, approver, reason, decidedAt)))]
      ensures !resolved ==> db == old(db)
      ensures db == Resolved(old(db), id, Resolution(decision, approver, reason, decidedAt))
    {
      if id !in db.approvals || db.approvals[id].resolution != None {
        return false;
      }
      var approval := db.approvals[id].(resolution := Some(Resolution(decision, approver, reason, decidedAt)));
      db := db.(approvals := db.approvals[id := approval]);
      resolved := true;
    }
  }
}
