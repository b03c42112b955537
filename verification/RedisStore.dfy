/** gateway/state/redis_store.py: the optimistic Redis store.  Any number of clients each run one
    `_update` as WATCH, GET, updater, MULTI/EXEC, retrying when the watched key has changed,
    while calls are created; their steps interleave freely. */
module RedisStore {
  import opened Common
  import opened StateStore

  /** A stored call.  `version` counts the writes to its key, which is what WATCH observes;
      `committedAt` is the clock at the latest of them. */
  datatype Cell = Cell(record: Record, version: nat, committedAt: int)

  datatype Phase =
    | Idle
    | Watching(version: nat, watchedAt: int)
    | Loaded(version: nat, watchedAt: int, base: Record)
    | Ready(version: nat, watchedAt: int, base: Record, first: int, second: int, next: Record)
    | Aborted
    | Committed(index: nat)
    | Raised

  /** One call of `_update`. `aborts` counts its EXECs that lost the race. */
  datatype Client = Client(callId: string, update: Update, phase: Phase, aborts: nat)

  /** `log` records the operations that took effect, in the order they did. */
  datatype Redis = Redis(cells: map<string, Cell>, sessions: map<string, seq<string>>,
                         clients: seq<Client>, now: int, log: seq<Op>)

  function VersionOf(s: Redis, id: string): nat {
    if id in s.cells then s.cells[id].version else 0
  }

  datatype Step =
    | Tick(to: int)
    | CreateCall(record: Record)
    | Arrive(callId: string, update: Update)
    | Watch(client: nat)
    | Get(client: nat)
    | RunUpdater(client: nat, first: int, second: int)
    | Exec(client: nat)
    | TimeOut(client: nat)

  function SetPhase(s: Redis, c: nat, p: Phase): Redis
    requires c < |s.clients|
  {
    s.(clients := s.clients[c := s.clients[c].(phase := p)])
  }

  predicate Enabled(s: Redis, step: Step) {
    match step
    case Tick(to) => s.now <= to
    case CreateCall(r) => Timely(r, s.now)
    case Arrive(_, _) => true
    case Watch(c) => c < |s.clients| && (s.clients[c].phase.Idle? || s.clients[c].phase.Aborted?)
    case Get(c) => c < |s.clients| && s.clients[c].phase.Watching?
    case RunUpdater(c, first, second) => c < |s.clients| && s.clients[c].phase.Loaded? && s.now <= first <= second
    case Exec(c) => c < |s.clients| && s.clients[c].phase.Ready?
    case TimeOut(c) => c < |s.clients| && !s.clients[c].phase.Committed?
  }

  function Load(s: Redis, c: nat): Redis
    requires c < |s.clients| && s.clients[c].phase.Watching?
  {
    var id, p := s.clients[c].callId, s.clients[c].phase;
    SetPhase(s, c, if id in s.cells then Loaded(p.version, p.watchedAt, s.cells[id].record) else Raised)
  }

  /** The updater runs between GET and MULTI and reads the clock. */
  function Compute(s: Redis, c: nat, first: int, second: int): Redis
    requires c < |s.clients| && s.clients[c].phase.Loaded?
  {
    var p := s.clients[c].phase;
    SetPhase(s, c, match Updated(s.clients[c].update, first, second, p.base)
                   case Some(next) => Ready(p.version, p.watchedAt, p.base, first, second, next)
                   case None => Raised).(now := second)
  }

  function Execute(s: Redis, c: nat): Redis
    requires c < |s.clients| && s.clients[c].phase.Ready?
  {
    var client, p := s.clients[c], s.clients[c].phase;
    if VersionOf(s, client.callId) == p.version then
      SetPhase(s, c, Committed(|s.log|))
        .(cells := s.cells[client.callId := Cell(p.next, p.version + 1, s.now)],
          log := s.log + [Change(client.callId, client.update, p.first, p.second)])
    else
      s.(clients := s.clients[c := client.(phase := Aborted, aborts := client.aborts + 1)])
  }

  function Apply(s: Redis, step: Step): Redis {
    if !Enabled(s, step) then s
    else match step
      case Tick(to) => s.(now := to)
      case CreateCall(r) =>
        s.(cells := s.cells[r.callId := Cell(r, VersionOf(s, r.callId) + 1, s.now)],
           sessions := Index(s.sessions, r), log := s.log + [Create(r)])
      case Arrive(id, u) => s.(clients := s.clients + [Client(id, u, Idle, 0)])
      case Watch(c) => SetPhase(s, c, Watching(VersionOf(s, s.clients[c].callId), s.now))
      case Get(c) => Load(s, c)
      case RunUpdater(c, first, second) => Compute(s, c, first, second)
      case Exec(c) => Execute(s, c)
      case TimeOut(c) => SetPhase(s, c, Raised)
  }

  function Start(now: int): Redis {
    Redis(map[], map[], [], now, [])
  }

  function Run(s: Redis, steps: seq<Step>): Redis {
    if steps == [] then s
    else Apply(Run(s, steps[..|steps| - 1]), steps[|steps| - 1])
  }

  /** What the stored keys mean. */
  function View(s: Redis): Memory {
    Memory(map id | id in s.cells :: s.cells[id].record, s.sessions)
  }

  // ----- The invariant -----

  /** A client whose watched version is still current has read the current record, and its
      clock readings are no earlier than the latest write. */
  predicate ClientOk(s: Redis, c: Client) {
    match c.phase
    case Watching(v, at) => v <= VersionOf(s, c.callId) && at <= s.now && WatchOk(s, c.callId, v, at)
    case Loaded(v, at, base) =>
      && v <= VersionOf(s, c.callId) && at <= s.now && WatchOk(s, c.callId, v, at)
      && c.callId in s.cells
      && (v == VersionOf(s, c.callId) ==> base == s.cells[c.callId].record)
    case Ready(v, at, base, first, second, next) =>
      && v <= VersionOf(s, c.callId) && at <= first <= second <= s.now && WatchOk(s, c.callId, v, at)
      && c.callId in s.cells
      && (v == VersionOf(s, c.callId) ==> base == s.cells[c.callId].record)
      && Updated(c.update, first, second, base) == Some(next)
    case Committed(i) =>
      i < |s.log| && s.log[i].Change? && s.log[i].callId == c.callId && s.log[i].update == c.update
    case _ => true
  }

  predicate WatchOk(s: Redis, id: string, v: nat, at: int) {
    v == VersionOf(s, id) && id in s.cells ==> s.cells[id].committedAt <= at
  }

  predicate ClientsOk(s: Redis) {
    forall c | 0 <= c < |s.clients| :: ClientOk(s, s.clients[c])
  }

  predicate CellsOk(s: Redis) {
    forall id | id in s.cells ::
      s.cells[id].version > 0 && s.cells[id].committedAt <= s.now && Timely(s.cells[id].record, s.cells[id].committedAt)
  }

  /** No two calls of `_update` took effect as the same log entry. */
  predicate CommitsDistinct(s: Redis) {
    forall c, d | 0 <= c < d < |s.clients| && s.clients[c].phase.Committed? && s.clients[d].phase.Committed? ::
      s.clients[c].phase.index != s.clients[d].phase.index
  }

  predicate CommittedBy(s: Redis, i: nat) {
    exists c | 0 <= c < |s.clients| :: s.clients[c].phase == Committed(i)
  }

  /** Every update in the log is the commit of some call of `_update`. */
  predicate CommitsOwned(s: Redis) {
    forall i | 0 <= i < |s.log| && s.log[i].Change? :: CommittedBy(s, i)
  }

  predicate Refines(s: Redis) {
    Replay(s.log) == Some(View(s))
  }

  predicate Inv(s: Redis) {
    Refines(s) && ClientsOk(s) && CellsOk(s) && CommitsDistinct(s) && CommitsOwned(s)
  }

  lemma ReplayStep(log: seq<Op>, op: Op)
    ensures Replay(log + [op]) == match Replay(log) case None => None case Some(m) => Perform(m, op)
  {
    hide Perform;
    assert (log + [op])[..|log|] == log;
  }

  /** Changing one client, and the clock forwards, leaves the others right. */
  lemma PhaseKeeps(s: Redis, s': Redis, c: nat)
    requires Inv(s) && c < |s.clients|
    requires |s'.clients| == |s.clients| && s' == s.(clients := s.clients[c := s'.clients[c]], now := s'.now)
    requires s'.now >= s.now
    requires ClientOk(s', s'.clients[c])
    requires !s.clients[c].phase.Committed? && !s'.clients[c].phase.Committed?
    ensures Inv(s')
  {
    forall d | 0 <= d < |s'.clients| ensures ClientOk(s', s'.clients[d]) {
      if d != c { assert ClientOk(s, s.clients[d]); }
    }
    forall i | 0 <= i < |s'.log| && s'.log[i].Change? ensures CommittedBy(s', i) {
      assert CommittedBy(s, i);
      var d :| 0 <= d < |s.clients| && s.clients[d].phase == Committed(i);
      assert s'.clients[d].phase == Committed(i);
    }
    assert View(s') == View(s);
  }

  /** A write to a key makes every earlier watch of it stale and leaves other keys alone. */
  lemma WriteKeepsClient(s: Redis, s': Redis, id: string, cell: Cell, c: Client)
    requires ClientOk(s, c)
    requires s'.now == s.now && s.log <= s'.log
    requires s'.cells == s.cells[id := cell] && cell.version > VersionOf(s, id)
    ensures ClientOk(s', c)
  {
    if c.phase.Committed? {
      assert s'.log[c.phase.index] == s.log[c.phase.index];
    }
  }

  lemma CreateKeepsOwners(s: Redis, r: Record)
    requires Inv(s)
    ensures CommitsOwned(Apply(s, CreateCall(r))) && CommitsDistinct(Apply(s, CreateCall(r)))
  {
    var s' := Apply(s, CreateCall(r));
    forall i | 0 <= i < |s'.log| && s'.log[i].Change? ensures CommittedBy(s', i) {
      assert s.log[i] == s'.log[i] && CommittedBy(s, i);
      var d :| 0 <= d < |s.clients| && s.clients[d].phase == Committed(i);
      assert s'.clients[d].phase == Committed(i);
    }
  }

  lemma CreateRefines(s: Redis, r: Record)
    requires Refines(s) && Timely(r, s.now)
    ensures Refines(Apply(s, CreateCall(r)))
  {
    var s' := Apply(s, CreateCall(r));
    assert s'.cells == s.cells[r.callId := Cell(r, VersionOf(s, r.callId) + 1, s.now)];
    ReplayStep(s.log, Create(r));
    assert View(s').calls == View(s).calls[r.callId := r];
  }

  lemma CreateKeepsCells(s: Redis, r: Record)
    requires CellsOk(s) && Timely(r, s.now)
    ensures CellsOk(Apply(s, CreateCall(r)))
  {
    hide Timely;
  }

  lemma CreateKeepsClients(s: Redis, r: Record)
    requires ClientsOk(s) && Timely(r, s.now)
    ensures ClientsOk(Apply(s, CreateCall(r)))
  {
    hide Timely, ClientOk;
    var s', cell := Apply(s, CreateCall(r)), Cell(r, VersionOf(s, r.callId) + 1, s.now);
    assert s.log <= s'.log;
    forall d | 0 <= d < |s'.clients| ensures ClientOk(s', s'.clients[d]) {
      WriteKeepsClient(s, s', r.callId, cell, s.clients[d]);
    }
  }

  lemma CreateKeeps(s: Redis, r: Record)
    requires Inv(s) && Timely(r, s.now)
    ensures Inv(Apply(s, CreateCall(r)))
  {
    hide Refines, ClientsOk, CellsOk, CommitsOwned, CommitsDistinct, Timely, Apply;
    CreateKeepsOwners(s, r);
    CreateRefines(s, r);
    CreateKeepsCells(s, r);
    CreateKeepsClients(s, r);
  }

  lemma ArriveKeeps(s: Redis, id: string, u: Update)
    requires Inv(s)
    ensures Inv(Apply(s, Arrive(id, u)))
  {
    var s' := Apply(s, Arrive(id, u));
    forall d | 0 <= d < |s'.clients| ensures ClientOk(s', s'.clients[d]) {
      if d < |s.clients| { assert ClientOk(s, s.clients[d]); }
    }
    forall i | 0 <= i < |s'.log| && s'.log[i].Change? ensures CommittedBy(s', i) {
      assert CommittedBy(s, i);
      var d :| 0 <= d < |s.clients| && s.clients[d].phase == Committed(i);
      assert s'.clients[d].phase == Committed(i);
    }
    assert View(s') == View(s);
  }

  lemma CommitRefines(s: Redis, c: nat)
    requires Inv(s) && c < |s.clients| && s.clients[c].phase.Ready?
    requires VersionOf(s, s.clients[c].callId) == s.clients[c].phase.version
    ensures Refines(Execute(s, c))
  {
    var s', id, p := Execute(s, c), s.clients[c].callId, s.clients[c].phase;
    assert ClientOk(s, s.clients[c]);
    ReplayStep(s.log, Change(id, s.clients[c].update, p.first, p.second));
    assert View(s').calls == View(s).calls[id := p.next];
  }

  lemma CommitKeepsClients(s: Redis, c: nat)
    requires Inv(s) && c < |s.clients| && s.clients[c].phase.Ready?
    requires VersionOf(s, s.clients[c].callId) == s.clients[c].phase.version
    ensures ClientsOk(Execute(s, c)) && CellsOk(Execute(s, c))
  {
    var s', id, p := Execute(s, c), s.clients[c].callId, s.clients[c].phase;
    assert ClientOk(s, s.clients[c]);
    var cell := Cell(p.next, p.version + 1, s.now);
    assert s'.cells == s.cells[id := cell];
    forall d | 0 <= d < |s'.clients| ensures ClientOk(s', s'.clients[d]) {
      if d != c { WriteKeepsClient(s, s', id, cell, s.clients[d]); }
    }
    UpdateKeepsTimely(s.clients[c].update, p.first, p.second, p.base, s.cells[id].committedAt);
  }

  /** A successful EXEC is the serial update of the current record. */
  lemma CommitKeeps(s: Redis, c: nat)
    requires Inv(s) && c < |s.clients| && s.clients[c].phase.Ready?
    requires VersionOf(s, s.clients[c].callId) == s.clients[c].phase.version
    ensures Inv(Execute(s, c))
  {
    hide Refines, ClientsOk, CellsOk, CommitsOwned, CommitsDistinct, Execute;
    CommitRefines(s, c);
    CommitKeepsClients(s, c);
    CommitKeepsOwners(s, c);
  }

  lemma CommitKeepsOwners(s: Redis, c: nat)
    requires Inv(s) && c < |s.clients| && s.clients[c].phase.Ready?
    requires VersionOf(s, s.clients[c].callId) == s.clients[c].phase.version
    ensures CommitsOwned(Execute(s, c)) && CommitsDistinct(Execute(s, c))
  {
    var s' := Execute(s, c);
    forall i | 0 <= i < |s'.log| && s'.log[i].Change? ensures CommittedBy(s', i) {
      if i == |s.log| {
        assert s'.clients[c].phase == Committed(i);
      } else {
        assert s.log[i] == s'.log[i] && CommittedBy(s, i);
        var d :| 0 <= d < |s.clients| && s.clients[d].phase == Committed(i);
        assert s'.clients[d].phase == Committed(i);
      }
    }
    forall d | 0 <= d < |s.clients| && s.clients[d].phase.Committed? ensures s.clients[d].phase.index < |s.log| {
      assert ClientOk(s, s.clients[d]);
    }
  }

  lemma TickKeeps(s: Redis, to: int)
    requires Inv(s) && s.now <= to
    ensures Inv(s.(now := to))
  {
    var s' := s.(now := to);
    forall d | 0 <= d < |s'.clients| ensures ClientOk(s', s'.clients[d]) { assert ClientOk(s, s.clients[d]); }
    forall i | 0 <= i < |s'.log| && s'.log[i].Change? ensures CommittedBy(s', i) { assert CommittedBy(s, i); }
    assert View(s') == View(s);
  }

  lemma GetKeeps(s: Redis, c: nat)
    requires Inv(s) && c < |s.clients| && s.clients[c].phase.Watching?
    ensures Inv(Load(s, c))
  {
    assert ClientOk(s, s.clients[c]);
    PhaseKeeps(s, Load(s, c), c);
  }

  lemma ComputeKeeps(s: Redis, c: nat, first: int, second: int)
    requires Inv(s) && c < |s.clients| && s.clients[c].phase.Loaded? && s.now <= first <= second
    ensures Inv(Compute(s, c, first, second))
  {
    assert ClientOk(s, s.clients[c]);
    PhaseKeeps(s, Compute(s, c, first, second), c);
  }

  lemma AbortKeeps(s: Redis, c: nat)
    requires Inv(s) && c < |s.clients| && s.clients[c].phase.Ready?
    requires VersionOf(s, s.clients[c].callId) != s.clients[c].phase.version
    ensures Inv(Execute(s, c))
  {
    PhaseKeeps(s, Execute(s, c), c);
  }

  /** Starting to watch, or giving up. */
  lemma WatchOrTimeOutKeeps(s: Redis, c: nat, p: Phase)
    requires Inv(s) && c < |s.clients| && !s.clients[c].phase.Committed?
    requires p == Watching(VersionOf(s, s.clients[c].callId), s.now) || p == Raised
    ensures Inv(SetPhase(s, c, p))
  {
    PhaseKeeps(s, SetPhase(s, c, p), c);
  }

  lemma StepKeeps(s: Redis, step: Step)
    requires Inv(s)
    ensures Inv(Apply(s, step))
  {
    hide Inv, Load, Compute, Execute, SetPhase, VersionOf, Timely;
    if Enabled(s, step) {
      match step
      case Tick(to) => TickKeeps(s, to);
      case CreateCall(r) => CreateKeeps(s, r);
      case Arrive(id, u) => ArriveKeeps(s, id, u);
      case Watch(c) => WatchOrTimeOutKeeps(s, c, Watching(VersionOf(s, s.clients[c].callId), s.now));
      case Get(c) => GetKeeps(s, c);
      case RunUpdater(c, first, second) => ComputeKeeps(s, c, first, second);
      case Exec(c) =>
        if VersionOf(s, s.clients[c].callId) == s.clients[c].phase.version {
          CommitKeeps(s, c);
        } else {
          AbortKeeps(s, c);
        }
      case TimeOut(c) => WatchOrTimeOutKeeps(s, c, Raised);
    }
  }

  lemma {:induction false} RunKeeps(s: Redis, steps: seq<Step>)
    requires Inv(s)
    ensures Inv(Run(s, steps))
  {
    if steps != [] {
      RunKeeps(s, steps[..|steps| - 1]);
      StepKeeps(Run(s, steps[..|steps| - 1]), steps[|steps| - 1]);
    }
  }

  // ----- What the store guarantees -----

  /** Serialisability: after any interleaving, the stored calls and session indexes are those
      of the in-memory store after running the committed operations serially, in commit order;
      every successful update is exactly one of them, and every update among them belongs to
      one successful call. */
  lemma InterleavingsAreSerial(now: int, steps: seq<Step>)
    ensures var s := Run(Start(now), steps);
            && Replay(s.log) == Some(View(s))
            && CommitsDistinct(s) && CommitsOwned(s)
            && (forall c | 0 <= c < |s.clients| && s.clients[c].phase.Committed? ::
                  && s.clients[c].phase.index < |s.log|
                  && var op := s.log[s.clients[c].phase.index];
                     op.Change? && op.callId == s.clients[c].callId && op.update == s.clients[c].update)
  {
    RunKeeps(Start(now), steps);
    var s := Run(Start(now), steps);
    forall c | 0 <= c < |s.clients| && s.clients[c].phase.Committed?
      ensures s.clients[c].phase.index < |s.log| && s.log[s.clients[c].phase.index].Change?
    {
      assert ClientOk(s, s.clients[c]);
    }
  }

  /** However many calls share the store, each call's stored record is the fold of its own
      committed operations, in commit order. */
  lemma CallsAreIndependent(now: int, steps: seq<Step>, id: string)
    ensures var s := Run(Start(now), steps);
            CellAfter(Own(s.log, id), id) == if id in s.cells then Some(s.cells[id].record) else None
  {
    RunKeeps(Start(now), steps);
    var s := Run(Start(now), steps);
    ReplayIsPerCall(s.log, id);
    OwnOperationsDecide(s.log, id);
    hide Run, Apply;
  }

  /** Every stored history is in time order and ends in the current state, whatever the
      interleaving of the writers. */
  lemma HistoriesAreChronological(now: int, steps: seq<Step>, id: string)
    requires id in Run(Start(now), steps).cells
    ensures var s := Run(Start(now), steps); Timely(s.cells[id].record, s.now)
  {
    RunKeeps(Start(now), steps);
  }

  // ----- The cost of optimistic retries -----

  function TotalAborts(clients: seq<Client>): nat {
    if clients == [] then 0
    else TotalAborts(clients[..|clients| - 1]) + clients[|clients| - 1].aborts
  }

  function Commits(clients: seq<Client>): nat {
    if clients == [] then 0
    else Commits(clients[..|clients| - 1]) + if clients[|clients| - 1].phase.Committed? then 1 else 0
  }

  /** 0 + 1 + ... + (n - 1). */
  function Triangle(n: nat): nat {
    if n == 0 then 0 else Triangle(n - 1) + n - 1
  }

  /** The most EXECs that n updates can have lost by the time k of them have committed. */
  function MostAborts(n: nat, k: nat): int {
    Triangle(k) + (n - k) * k
  }

  lemma MostAbortsAfterCommit(n: nat, k: nat)
    ensures MostAborts(n, k + 1) == MostAborts(n, k) + n - k - 1
  {
  }

  lemma MostAbortsAfterArrival(n: nat, k: nat)
    ensures MostAborts(n + 1, k) == MostAborts(n, k) + k
  {
  }

  lemma {:induction false} MostAbortsClosed(n: nat, k: nat)
    ensures 2 * MostAborts(n, k) == k * (k - 1) + 2 * ((n - k) * k)
    ensures 2 * MostAborts(n, n) == n * (n - 1)
  {
    TriangleClosed(k);
    TriangleClosed(n);
  }

  lemma {:induction false} TriangleClosed(n: nat)
    ensures 2 * Triangle(n) == n * (n - 1)
  {
    if n > 0 {
      TriangleClosed(n - 1);
      assert n * (n - 1) == (n - 1) * (n - 2) + 2 * (n - 1);
    }
  }

  /** How many aborts a client can have suffered once `done` commits have happened after log
      position `origin`: one per commit, and for a committed client one per earlier commit. */
  function Allowance(c: Client, origin: nat, done: nat): int {
    if c.phase.Committed? then c.phase.index - origin else done
  }

  function TotalAllowance(clients: seq<Client>, origin: nat, done: nat): int {
    if clients == [] then 0
    else TotalAllowance(clients[..|clients| - 1], origin, done) + Allowance(clients[|clients| - 1], origin, done)
  }

  lemma {:induction false} AllowanceOfOne(clients: seq<Client>, i: nat, x: Client, origin: nat, done: nat)
    requires i < |clients|
    ensures TotalAllowance(clients[i := x], origin, done)
            == TotalAllowance(clients, origin, done) - Allowance(clients[i], origin, done) + Allowance(x, origin, done)
    ensures Commits(clients[i := x])
            == Commits(clients) - (if clients[i].phase.Committed? then 1 else 0) + if x.phase.Committed? then 1 else 0
  {
    var n := |clients| - 1;
    if i == n {
      assert clients[i := x][..n] == clients[..n];
    } else {
      assert clients[i := x][..n] == clients[..n][i := x];
      AllowanceOfOne(clients[..n], i, x, origin, done);
    }
  }

  /** One more commit raises the allowance of every client that has not committed. */
  lemma {:induction false} AllowanceOfNextCommit(clients: seq<Client>, origin: nat, done: nat)
    ensures TotalAllowance(clients, origin, done + 1)
            == TotalAllowance(clients, origin, done) + |clients| - Commits(clients)
  {
    if clients != [] {
      AllowanceOfNextCommit(clients[..|clients| - 1], origin, done);
    }
  }

  lemma {:induction false} AbortsWithinAllowance(clients: seq<Client>, origin: nat, done: nat)
    requires forall c | 0 <= c < |clients| :: clients[c].aborts <= Allowance(clients[c], origin, done)
    ensures TotalAborts(clients) <= TotalAllowance(clients, origin, done)
  {
    if clients != [] {
      AbortsWithinAllowance(clients[..|clients| - 1], origin, done);
    }
  }

  /** Only updates of call `id` run. */
  predicate OnlyUpdates(step: Step, id: string) {
    !step.CreateCall? && (step.Arrive? ==> step.callId == id)
  }

  /** A client has lost at most one EXEC per commit before its current watch. */
  predicate CostOk(c: Client, id: string, version0: nat, origin: nat, done: nat) {
    && c.callId == id
    && match c.phase
       case Idle => c.aborts == 0
       case Watching(v, _) => version0 <= v <= version0 + done && c.aborts <= v - version0
       case Loaded(v, _, _) => version0 <= v <= version0 + done && c.aborts <= v - version0
       case Ready(v, _, _, _, _, _) => version0 <= v <= version0 + done && c.aborts <= v - version0
       case Committed(i) => origin <= i && c.aborts <= i - origin
       case _ => c.aborts <= done
  }

  predicate CostInv(s: Redis, id: string, version0: nat, origin: nat) {
    && origin <= |s.log|
    && var done := |s.log| - origin;
       && VersionOf(s, id) == version0 + done
       && Commits(s.clients) == done
       && (forall c | 0 <= c < |s.clients| :: CostOk(s.clients[c], id, version0, origin, done))
       && TotalAllowance(s.clients, origin, done) == MostAborts(|s.clients|, done)
  }

  lemma CostOfPhase(s: Redis, s': Redis, c: nat, id: string, version0: nat, origin: nat)
    requires CostInv(s, id, version0, origin) && c < |s.clients|
    requires |s'.clients| == |s.clients| && s'.clients == s.clients[c := s'.clients[c]]
    requires s'.log == s.log && VersionOf(s', id) == VersionOf(s, id)
    requires !s.clients[c].phase.Committed? && !s'.clients[c].phase.Committed?
    requires CostOk(s'.clients[c], id, version0, origin, |s.log| - origin)
    ensures CostInv(s', id, version0, origin)
  {
    AllowanceOfOne(s.clients, c, s'.clients[c], origin, |s.log| - origin);
  }

  lemma CostOfCommit(s: Redis, c: nat, id: string, version0: nat, origin: nat)
    requires CostInv(s, id, version0, origin) && c < |s.clients| && s.clients[c].phase.Ready?
    requires VersionOf(s, id) == s.clients[c].phase.version
    ensures CostInv(Execute(s, c), id, version0, origin)
  {
    var done, n := |s.log| - origin, |s.clients|;
    var s', x := Execute(s, c), s.clients[c].(phase := Committed(|s.log|));
    assert CostOk(s.clients[c], id, version0, origin, done);
    assert s'.clients == s.clients[c := x] && |s'.log| - origin == done + 1;
    AllowanceOfNextCommit(s.clients, origin, done);
    AllowanceOfOne(s.clients, c, x, origin, done + 1);
    hide MostAborts, TotalAllowance;
    MostAbortsAfterCommit(n, done);
    forall d | 0 <= d < n ensures CostOk(s'.clients[d], id, version0, origin, done + 1) {
      assert CostOk(s.clients[d], id, version0, origin, done);
    }
  }

  lemma TotalsAppend(clients: seq<Client>, x: Client, origin: nat, done: nat)
    ensures TotalAllowance(clients + [x], origin, done)
            == TotalAllowance(clients, origin, done) + Allowance(x, origin, done)
    ensures Commits(clients + [x]) == Commits(clients) + if x.phase.Committed? then 1 else 0
  {
    assert (clients + [x])[..|clients|] == clients;
  }

  lemma CostOfArrival(s: Redis, u: Update, id: string, version0: nat, origin: nat)
    requires CostInv(s, id, version0, origin)
    ensures CostInv(s.(clients := s.clients + [Client(id, u, Idle, 0)]), id, version0, origin)
  {
    hide MostAborts, TotalAllowance, Commits;
    var x, done := Client(id, u, Idle, 0), |s.log| - origin;
    TotalsAppend(s.clients, x, origin, done);
    MostAbortsAfterArrival(|s.clients|, done);
    forall c | 0 <= c < |s.clients| + 1 ensures CostOk((s.clients + [x])[c], id, version0, origin, done) {
      if c < |s.clients| { assert CostOk(s.clients[c], id, version0, origin, done); }
    }
  }

  lemma CostStep(s: Redis, step: Step, id: string, version0: nat, origin: nat)
    requires CostInv(s, id, version0, origin) && OnlyUpdates(step, id)
    ensures CostInv(Apply(s, step), id, version0, origin)
  {
    hide MostAborts;
    if Enabled(s, step) {
      match step
      case Tick(_) =>
      case Arrive(_, u) => CostOfArrival(s, u, id, version0, origin);
      case Exec(c) =>
        assert CostOk(s.clients[c], id, version0, origin, |s.log| - origin);
        if VersionOf(s, id) == s.clients[c].phase.version {
          CostOfCommit(s, c, id, version0, origin);
        } else {
          CostOfPhase(s, Apply(s, step), c, id, version0, origin);
        }
      case Watch(c) => CostOfPhase(s, Apply(s, step), c, id, version0, origin);
      case Get(c) => CostOfPhase(s, Apply(s, step), c, id, version0, origin);
      case RunUpdater(c, _, _) => CostOfPhase(s, Apply(s, step), c, id, version0, origin);
      case TimeOut(c) => CostOfPhase(s, Apply(s, step), c, id, version0, origin);
    }
  }

  lemma {:induction false} CostRun(s: Redis, steps: seq<Step>, id: string, version0: nat, origin: nat)
    requires CostInv(s, id, version0, origin)
    requires forall i | 0 <= i < |steps| :: OnlyUpdates(steps[i], id)
    ensures CostInv(Run(s, steps), id, version0, origin)
  {
    if steps != [] {
      CostRun(s, steps[..|steps| - 1], id, version0, origin);
      CostStep(Run(s, steps[..|steps| - 1]), steps[|steps| - 1], id, version0, origin);
    }
  }

  /** From any state without pending updates: n updates of one call, however interleaved, lose
      at most k(k-1)/2 + (n-k)k EXECs by the time k of them have committed; n(n-1)/2 once all
      have. */
  lemma AbortsAreBounded(s: Redis, steps: seq<Step>, id: string)
    requires s.clients == []
    requires forall i | 0 <= i < |steps| :: OnlyUpdates(steps[i], id)
    ensures var s' := Run(s, steps); var n, k := |s'.clients|, Commits(s'.clients);
            && TotalAborts(s'.clients) <= MostAborts(n, k)
            && 2 * MostAborts(n, k) == k * (k - 1) + 2 * ((n - k) * k)
            && (k == n ==> 2 * TotalAborts(s'.clients) <= n * (n - 1))
  {
    hide MostAborts, CostInv, Run, TotalAborts, Commits, OnlyUpdates;
    CostStart(s, id);
    CostRun(s, steps, id, VersionOf(s, id), |s.log|);
    var s' := Run(s, steps);
    AbortsWithinMost(s', id, VersionOf(s, id), |s.log|);
    BoundCloses(TotalAborts(s'.clients), |s'.clients|, Commits(s'.clients));
  }

  lemma BoundCloses(total: nat, n: nat, k: nat)
    requires total <= MostAborts(n, k)
    ensures 2 * MostAborts(n, k) == k * (k - 1) + 2 * ((n - k) * k)
    ensures k == n ==> 2 * total <= n * (n - 1)
  {
    hide MostAborts;
    MostAbortsClosed(n, k);
  }

  lemma CostStart(s: Redis, id: string)
    requires s.clients == []
    ensures CostInv(s, id, VersionOf(s, id), |s.log|)
  {
    hide MostAborts, Triangle;
    NoAbortsYet();
    assert |s.log| - |s.log| == 0;
  }

  lemma NoAbortsYet()
    ensures MostAborts(0, 0) == 0
  {
  }

  lemma AbortsWithinMost(s: Redis, id: string, version0: nat, origin: nat)
    requires CostInv(s, id, version0, origin)
    ensures TotalAborts(s.clients) <= MostAborts(|s.clients|, Commits(s.clients))
  {
    var done := |s.log| - origin;
    forall c | 0 <= c < |s.clients| ensures s.clients[c].aborts <= Allowance(s.clients[c], origin, done) {
      assert CostOk(s.clients[c], id, version0, origin, done);
    }
    AbortsWithinAllowance(s.clients, origin, done);
  }
}
