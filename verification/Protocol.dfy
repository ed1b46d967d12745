/** One pool's protocol as a state machine. Every call of the pool's pass and of its
    provisioning goroutines is a labelled step, and so are a crash of the process, a create
    that is answered only after a crash, and whatever happens outside the controller: time
    passes, runners change or go away, and so do VMs. A run
    is a journal of labels; its prefixes are the states in which the process can die. */
module Protocol {
  import opened Lifecycle
  import opened Records
  import opened InstanceStore
  import opened Scheduler
  import opened Stores
  import P = Provision
  import B = Breaker
  import I = Incidents

  datatype Scaling = Scaling(
    minIdle: nat,
    maxInstances: nat,
    maxProvisioning: nat,
    attemptLimit: nat,
    retryInterval: Time,
    idleTimeout: Time,
    maxLifetime: Time)

  function Limits(pool: Scaling): B.Limits {
    B.Limits(pool.attemptLimit, pool.retryInterval)
  }

  /** Idle between passes, Sweeping until the orphans are collected, Maintaining until the
      starts begin, Provisioning while goroutines run. */
  datatype Phase = Idle | Sweeping | Maintaining | Provisioning

  /** What a run of the protocol stays within: the limits of the pool, or what there was
      already when the run began, if that was more. */
  datatype Ceilings = Ceilings(vms: nat, records: nat, booting: nat)

  /** The run in the pool's runtime row. */
  datatype RunRow = RunRow(runId: string, state: I.RunState)

  /** The runtime row, and how far the pass has come with it: `confirmed` is a run whose start
      is known to be committed and whose first progress is still to be recorded; `owed` is one
      for which FinishPool will be called. `filings` are the results it has been called with.
      `settled` says that InterruptPools has succeeded since the process came up. */
  datatype Book = Book(
    row: Option<RunRow>,
    confirmed: Option<string>,
    owed: Option<string>,
    filings: seq<RunRow>,
    settled: bool)

  /** `claims` are the names that VMs of the pool can have; `refused` counts the store calls
      a guard has refused. */
  datatype PoolState = PoolState(
    w: World,
    phase: Phase,
    workers: seq<P.Worker>,
    claims: set<string>,
    bootstrap: B.History,
    refused: nat,
    ceilings: Ceilings,
    book: Book)

  datatype Label =
    | StartRun(runId: string, fate: Fate)
    | ProgressRun(runId: string, fate: Fate)
    | FinishRun(runId: string, state: I.RunState, fate: Fate)
    | InterruptRun(fate: Fate)
    | BeginPass
    | StoreCall(id: string, call: Call)
    | RefusedCall
    | DeleteVm(name: string)
    | DeleteRunner(runner: int)
    | SweepDone
    | Reserve(wanted: nat, fate: Fate)
    | BeginProvisioning
    | Spawn(record: Instance, fate: Fate)
    | Proceed(k: nat, choice: P.Choice)
    | Hold(fate: Fate)
    | Reset(fate: Fate)
    | EndPass
    | Crash
    | SettleLate(name: string, landed: bool)
    | Outside(runners: map<int, RunnerStatus>, vms: map<string, string>, clock: Time)

  predicate InPass(s: PoolState) {
    s.phase == Sweeping || s.phase == Maintaining
  }

  /** Some goroutine of the pass has ended with a success. */
  predicate SomeSuccess(workers: seq<P.Worker>) {
    exists k | 0 <= k < |workers| :: workers[k].pc == P.Done(true)
  }

  predicate AllDone(workers: seq<P.Worker>) {
    forall k | 0 <= k < |workers| :: workers[k].pc.Done?
  }

  /** The pass may delete a VM that no live record owns, or one whose record is Cleaning. */
  ghost predicate MayDeleteVm(w: World, name: string) {
    name in w.names ==>
      && w.names[name] in w.records
      && (w.records[w.names[name]].state == Cleaning || w.records[w.names[name]].state == Finished)
  }

  /** The same for a runner: no live record holds it, or its record is Cleaning. */
  ghost predicate MayDeleteRunner(w: World, r: int) {
    && r in w.issued
    && (w.issued[r] in w.names && w.names[w.issued[r]] in w.records ==>
          var rec := w.records[w.names[w.issued[r]]];
          rec.runner == r ==> rec.state == Cleaning || rec.state == Finished)
  }

  /** The pass's own calls on a record: a live one of the pool, accepted by the guard, and
      finished only when its VM and its runner are gone. */
  ghost predicate MayCall(w: World, id: string, call: Call) {
    && Live(w, id)
    && Change(w.records[id], call).Some?
    && !call.SetRegistration?
    && (call.MarkReady? || call.MarkRunning? ==> w.records[id].runner != 0)
    && (call.FinishCleanup? ==> w.records[id].name !in w.vms && w.records[id].runner !in w.runners)
  }

  ghost predicate Enabled(pool: Scaling, s: PoolState, l: Label) {
    match l
    case StartRun(_, _) =>
      s.phase == Idle && s.book.confirmed == None && s.book.owed == None && s.book.settled
    case ProgressRun(runId, _) => s.phase == Idle && s.book.confirmed == Some(runId)
    case FinishRun(runId, state, _) => s.phase == Idle && s.book.owed == Some(runId) && state != I.RunRunning
    case InterruptRun(_) => s.phase == Idle && s.book.confirmed == None && s.book.owed == None
    case BeginPass => s.phase == Idle && s.w.pending == map[] && s.book.owed.Some?
    case StoreCall(id, call) => InPass(s) && MayCall(s.w, id, call)
    case RefusedCall => true
    // The pass knows the name from a record or from the list of managed VMs.
    case DeleteVm(name) => InPass(s) && MayDeleteVm(s.w, name) && (name in s.w.names || name in s.claims)
    case DeleteRunner(r) => InPass(s) && MayDeleteRunner(s.w, r)
    case SweepDone => s.phase == Sweeping && Swept(s.w)
    case Reserve(wanted, _) => s.phase == Maintaining && s.bootstrap.granted == 0 && wanted >= 1
    case BeginProvisioning =>
      && s.phase == Maintaining
      && |Active(s.w.records)| + s.bootstrap.granted <= pool.maxInstances
      && |Booting(s.w)| + s.bootstrap.granted <= pool.maxProvisioning
    case Spawn(record, fate) =>
      && s.phase == Provisioning && s.bootstrap.granted > 0
      && (Inserts(s.w, record, fate) ==>
            Possible(s.w, Insert(record)) && record.state == Bootstrapping && P.Unended(record))
    case Proceed(k, choice) =>
      && s.phase == Provisioning && k < |s.workers|
      && P.Fits(s.w, s.workers[k], choice)
    case Hold(_) =>
      && s.phase == Provisioning && s.bootstrap.granted == 0 && !SomeSuccess(s.workers)
      && s.bootstrap.row.attempts == pool.attemptLimit
    case Reset(_) => s.phase == Provisioning && s.bootstrap.granted == 0 && SomeSuccess(s.workers)
    case EndPass => s.phase == Provisioning ==> s.bootstrap.granted == 0 && AllDone(s.workers)
    case Crash => true
    case SettleLate(name, _) => s.phase == Idle && name in s.w.pending
    case Outside(runners, vms, clock) => Passing(s.w, runners, vms, clock)
  }

  /** Time does not go back, and nothing of the pool's appears by itself. */
  predicate Passing(w: World, runners: map<int, RunnerStatus>, vms: map<string, string>, clock: Time) {
    && w.clock <= clock
    && (forall r | r in runners :: r in w.runners)
    && (forall n | n in vms :: n in w.vms && vms[n] == w.vms[n])
  }

  /** The runtime row, by the statements of StartPool, ProgressPool, FinishPool (which is
      fenced on the run) and InterruptPools. */
  function Booked(b: Book, l: Label): Book {
    match l
    case StartRun(runId, fate) =>
      b.(row := if fate == FailsBefore then b.row else Some(RunRow(runId, I.RunRunning)),
         confirmed := if fate == Commits then Some(runId) else None, owed := None)
    case ProgressRun(runId, fate) => b.(confirmed := None, owed := if fate == Commits then Some(runId) else None)
    case FinishRun(runId, state, fate) =>
      b.(row := if fate != FailsBefore && b.row.Some? && b.row.value.runId == runId
                then Some(RunRow(runId, state)) else b.row,
         confirmed := None, owed := None, filings := b.filings + [RunRow(runId, state)])
    case InterruptRun(fate) =>
      b.(row := if fate != FailsBefore && b.row.Some? && b.row.value.state == I.RunRunning
                then Some(RunRow(b.row.value.runId, I.RunFailed)) else b.row,
         settled := b.settled || fate == Commits)
    case Crash => b.(confirmed := None, owed := None, settled := false)
    case _ => b
  }

  /** Whether the INSERT of a new record takes effect: the name must be free. */
  predicate Inserts(w: World, record: Instance, fate: Fate) {
    fate != FailsBefore && record.name !in w.names
  }

  function Do(pool: Scaling, s: PoolState, l: Label): PoolState {
    match l
    case StartRun(_, _) => s.(book := Booked(s.book, l))
    case ProgressRun(_, _) => s.(book := Booked(s.book, l))
    case FinishRun(_, _, _) => s.(book := Booked(s.book, l))
    case InterruptRun(_) => s.(book := Booked(s.book, l))
    case BeginPass => s.(phase := Sweeping)
    case StoreCall(id, call) =>
      if id !in s.w.records || Change(s.w.records[id], call).None? then s
      else s.(w := Effected(s.w, Write(Stamp(s.w.records[id], Change(s.w.records[id], call).value, s.w.clock))))
    case RefusedCall => s.(refused := s.refused + 1)
    case DeleteVm(name) => s.(w := Effected(s.w, DropVm(name)))
    case DeleteRunner(r) => s.(w := Effected(s.w, DropRunner(r)))
    case SweepDone => s.(phase := Maintaining)
    case Reserve(wanted, fate) => s.(bootstrap := B.Reserved(s.bootstrap, Limits(pool), wanted, s.w.clock, fate))
    case BeginProvisioning =>
      s.(phase := Provisioning,
         claims := set id | id in s.w.records && s.w.records[id].state != Finished :: s.w.records[id].name)
    case Spawn(record, fate) => DoSpawn(s, record, fate)
    case Proceed(k, choice) => DoProceed(s, k, choice)
    case Hold(fate) => s.(bootstrap := B.Held(s.bootstrap, Limits(pool), s.w.clock, fate))
    case Reset(fate) => s.(bootstrap := B.WasReset(s.bootstrap, fate))
    case EndPass => s.(phase := Idle, workers := [], bootstrap := B.Abandoned(s.bootstrap))
    case Crash => s.(phase := Idle, workers := [], bootstrap := B.Abandoned(s.bootstrap), book := Booked(s.book, l))
    case SettleLate(name, landed) => s.(w := Effected(s.w, Settle(name, landed)))
    case Outside(runners, vms, clock) => s.(w := s.w.(runners := runners, vms := vms, clock := clock))
  }

  /** A goroutine starts: it inserts its record and goes on only if that is confirmed. */
  function DoSpawn(s: PoolState, record: Instance, fate: Fate): PoolState {
    if s.bootstrap.granted == 0 then s
    else
      var started := s.(bootstrap := B.Started(s.bootstrap));
      if !Inserts(s.w, record, fate) then started
      else started.(
        w := Effected(s.w, Insert(record)),
        claims := s.claims + {record.name},
        workers := s.workers +
                   if fate == Commits then [P.Worker(record.id, record.name, P.Boot(P.ToStageRegister, 0))] else [])
  }

  function DoProceed(s: PoolState, k: nat, choice: P.Choice): PoolState {
    if k >= |s.workers| then s
    else
      var m := P.Step(s.w, s.workers[k], choice);
      s.(w := Effected(s.w, m.effect),
         workers := s.workers[k := s.workers[k].(pc := m.pc)],
         refused := s.refused + if m.refused then 1 else 0)
  }

  /** The one effect on the stores that a step has. */
  function EffectOf(s: PoolState, l: Label): Effect {
    match l
    case StoreCall(id, call) =>
      if id !in s.w.records || Change(s.w.records[id], call).None? then Nothing
      else Write(Stamp(s.w.records[id], Change(s.w.records[id], call).value, s.w.clock))
    case DeleteVm(name) => DropVm(name)
    case DeleteRunner(r) => DropRunner(r)
    case Spawn(record, fate) =>
      if s.bootstrap.granted > 0 && Inserts(s.w, record, fate) then Insert(record) else Nothing
    case Proceed(k, choice) => if k < |s.workers| then P.Step(s.w, s.workers[k], choice).effect else Nothing
    case SettleLate(name, landed) => Settle(name, landed)
    case _ => Nothing
  }

  lemma DoHasEffect(pool: Scaling, s: PoolState, l: Label)
    requires !l.Outside?
    ensures Do(pool, s, l).w == Effected(s.w, EffectOf(s, l))
  {}

  // ---- the invariant ----

  /** Starts that are reserved and may still insert a record in this pass. */
  function Slots(s: PoolState): nat {
    if s.phase == Provisioning then s.bootstrap.granted else 0
  }

  ghost predicate Bounded(pool: Scaling, s: PoolState) {
    && pool.maxInstances <= s.ceilings.vms && pool.maxInstances <= s.ceilings.records
    && pool.maxProvisioning <= s.ceilings.booting
    && |Active(s.w.records)| + Slots(s) <= s.ceilings.records
    && |Booting(s.w)| + Slots(s) <= s.ceilings.booting
    && |s.claims| + Slots(s) <= s.ceilings.vms
    && s.w.vms.Keys <= s.claims
    && s.w.pending.Keys <= s.claims
  }

  ghost predicate Threads(s: PoolState) {
    && (forall k :: 0 <= k < |s.workers| ==> P.Follows(s.w, s.workers[k]) && s.workers[k].name in s.claims)
    && (forall j, k :: 0 <= j < k < |s.workers| ==> s.workers[j].id != s.workers[k].id)
    && (s.phase != Provisioning ==> s.workers == [])
  }

  /** A run the pass is concerned with is the one in the row, and still running there. */
  ghost predicate BookKept(b: Book) {
    && (b.confirmed.Some? ==> b.row == Some(RunRow(b.confirmed.value, I.RunRunning)))
    && (b.owed.Some? ==> b.row == Some(RunRow(b.owed.value, I.RunRunning)))
  }

  ghost predicate Inv(pool: Scaling, s: PoolState) {
    && Sane(s.w)
    && Bounded(pool, s)
    && Threads(s)
    && BookKept(s.book)
    && (InPass(s) ==> s.w.pending == map[])
    && (s.phase == Maintaining ==> Swept(s.w))
    && s.w.clock > 0 && B.Sound(Limits(pool)) && B.Keeps(s.bootstrap, Limits(pool), s.w.clock)
    && (s.phase == Idle || s.phase == Sweeping ==> s.bootstrap.granted == 0)
  }

  // ---- every step keeps the invariant ----

  /** During a pass only the stores change, and no goroutine is there to be disturbed. */
  lemma PassKeeps(pool: Scaling, s: PoolState, w': World)
    requires Inv(pool, s) && InPass(s)
    requires Sane(w') && (s.phase == Maintaining ==> Swept(w'))
    requires |Active(w'.records)| <= |Active(s.w.records)| && |Booting(w')| <= |Booting(s.w)|
    requires w'.vms.Keys <= s.w.vms.Keys && w'.pending == s.w.pending && w'.clock == s.w.clock
    ensures Inv(pool, s.(w := w'))
  {}

  lemma StoreCallKeeps(pool: Scaling, s: PoolState, id: string, call: Call)
    requires Inv(pool, s) && Enabled(pool, s, StoreCall(id, call))
    ensures Inv(pool, Do(pool, s, StoreCall(id, call)))
  {
    var row := RowAfter(s.w, id, call);
    WriteSane(s.w, row);
    WriteCounts(s.w, row);
    if s.phase == Maintaining {
      WriteSwept(s.w, row);
    }
    PassKeeps(pool, s, Effected(s.w, Write(row)));
  }

  /** The row an accepted call of the pass writes. */
  lemma {:induction false} RowAfter(w: World, id: string, call: Call) returns (row: Instance)
    requires Sane(w) && MayCall(w, id, call)
    ensures row == Stamp(w.records[id], Change(w.records[id], call).value, w.clock)
    ensures row.id == id && Possible(w, Write(row)) && row.runner == w.records[id].runner
    ensures row.state == Finished ==> call.FinishCleanup?
    ensures row.state == Finished ==> row.name !in w.vms && row.runner !in w.runners
  {
    var before := w.records[id];
    ChangeFollowsLifecycle(before, call);
    row := Stamp(before, Change(before, call).value, w.clock);
  }

  lemma WriteSwept(w: World, row: Instance)
    requires Sane(w) && Swept(w) && Possible(w, Write(row))
    requires row.runner == w.records[row.id].runner
    requires row.state == Finished ==> row.name !in w.vms && row.runner !in w.runners
    ensures Swept(Effected(w, Write(row)))
  {
    var w' := Effected(w, Write(row));
    forall r | r in w'.runners
      ensures r in w'.issued && Holder(w', r)
    {
      assert Holder(w, r);
    }
    forall n | n in w'.vms
      ensures n in w'.names && Live(w', w'.names[n])
    {
      assert Live(w, w.names[n]);
    }
  }

  lemma DropSwept(w: World, w': World)
    requires Swept(w)
    requires w'.records == w.records && w'.names == w.names && w'.issued == w.issued
    requires w'.vms.Keys <= w.vms.Keys && w'.runners.Keys <= w.runners.Keys
    ensures Swept(w')
  {
    forall r | r in w'.runners
      ensures r in w'.issued && Holder(w', r)
    {
      assert Holder(w, r);
    }
    forall n | n in w'.vms
      ensures n in w'.names && Live(w', w'.names[n])
    {
      assert Live(w, w.names[n]);
    }
  }

  lemma DeleteKeeps(pool: Scaling, s: PoolState, e: Effect)
    requires Inv(pool, s) && InPass(s) && (e.DropVm? || e.DropRunner?)
    ensures Inv(pool, s.(w := Effected(s.w, e)))
  {
    EffectedSane(s.w, e);
    if s.phase == Maintaining {
      DropSwept(s.w, Effected(s.w, e));
    }
    PassKeeps(pool, s, Effected(s.w, e));
  }

  lemma OutsideThreads(s: PoolState, w': World)
    requires Threads(s)
    requires w'.records == s.w.records && w'.names == s.w.names && w'.issued == s.w.issued
    requires w'.vms.Keys <= s.w.vms.Keys && w'.pending == s.w.pending
    requires forall r :: r in w'.runners ==> r in s.w.runners
    ensures Threads(s.(w := w'))
  {
    forall k | 0 <= k < |s.workers|
      ensures P.Follows(w', s.workers[k])
    {
      assert P.Follows(s.w, s.workers[k]);
    }
  }

  lemma OutsideSane(w: World, runners: map<int, RunnerStatus>, vms: map<string, string>, clock: Time)
    requires Sane(w) && Passing(w, runners, vms, clock)
    ensures Sane(w.(runners := runners, vms := vms, clock := clock))
  {}

  lemma OutsideParts(pool: Scaling, s: PoolState, w': World)
    requires Inv(pool, s) && Passing(s.w, w'.runners, w'.vms, w'.clock)
    requires w' == s.w.(runners := w'.runners, vms := w'.vms, clock := w'.clock)
    ensures Sane(w') && Threads(s.(w := w')) && (s.phase == Maintaining ==> Swept(w'))
    ensures w'.clock > 0 && B.Keeps(s.bootstrap, Limits(pool), w'.clock) && w'.vms.Keys <= s.w.vms.Keys
  {
    OutsideSane(s.w, w'.runners, w'.vms, w'.clock);
    OutsideThreads(s, w');
    B.LaterKeeps(s.bootstrap, Limits(pool), s.w.clock, w'.clock);
    if s.phase == Maintaining {
      DropSwept(s.w, w');
    }
  }

  /** Nothing depends on a VM's staying where it is: it may go away by itself. */
  lemma OutsideKeeps(pool: Scaling, s: PoolState, runners: map<int, RunnerStatus>, vms: map<string, string>,
                     clock: Time)
    requires Inv(pool, s) && Passing(s.w, runners, vms, clock)
    ensures Inv(pool, Do(pool, s, Outside(runners, vms, clock)))
  {
    var w' := s.w.(runners := runners, vms := vms, clock := clock);
    OutsideDone(pool, s, runners, vms, clock);
    hide Inv, Do, Sane, Threads, Swept;
    OutsideParts(pool, s, w');
    OutsideReplaced(pool, s, w');
  }

  lemma OutsideDone(pool: Scaling, s: PoolState, runners: map<int, RunnerStatus>, vms: map<string, string>, clock: Time)
    ensures Do(pool, s, Outside(runners, vms, clock)) ==
            s.(w := s.w.(runners := runners, vms := vms, clock := clock))
  {}

  lemma OutsideReplaced(pool: Scaling, s: PoolState, w': World)
    requires Inv(pool, s) && Sane(w') && Threads(s.(w := w')) && (s.phase == Maintaining ==> Swept(w'))
    requires w'.records == s.w.records && w'.pending == s.w.pending && w'.vms.Keys <= s.w.vms.Keys
    requires w'.clock > 0 && B.Keeps(s.bootstrap, Limits(pool), w'.clock)
    ensures Inv(pool, s.(w := w'))
  {}

  lemma BeginProvisioningKeeps(pool: Scaling, s: PoolState)
    requires Inv(pool, s) && Enabled(pool, s, BeginProvisioning)
    ensures Inv(pool, Do(pool, s, BeginProvisioning))
  {
    var s' := Do(pool, s, BeginProvisioning);
    NamesOf(s.w.records, Active(s.w.records));
    assert s'.claims == LiveNames(s.w);
    forall n | n in s.w.vms
      ensures n in s'.claims
    {
      assert Live(s.w, s.w.names[n]);
    }
  }

  lemma InsertFollows(w: World, record: Instance, k: P.Worker)
    requires Possible(w, Insert(record)) && P.Follows(w, k)
    ensures P.Follows(Effected(w, Insert(record)), k) && k.id != record.id
  {}

  lemma SpawnThreads(s: PoolState, record: Instance, fate: Fate)
    requires Sane(s.w) && Threads(s) && s.phase == Provisioning
    requires Inserts(s.w, record, fate) ==>
               Possible(s.w, Insert(record)) && record.state == Bootstrapping && P.Unended(record)
    ensures Threads(DoSpawn(s, record, fate))
  {
    var s' := DoSpawn(s, record, fate);
    if Inserts(s.w, record, fate) && s.bootstrap.granted > 0 {
      forall k | 0 <= k < |s.workers|
        ensures P.Follows(s'.w, s.workers[k]) && s.workers[k].id != record.id
      {
        InsertFollows(s.w, record, s.workers[k]);
      }
      var me := P.Worker(record.id, record.name, P.Boot(P.ToStageRegister, 0));
      assert record.name !in s.w.pending;
      assert P.Follows(s'.w, me);
      forall k | 0 <= k < |s'.workers|
        ensures P.Follows(s'.w, s'.workers[k]) && s'.workers[k].name in s'.claims
      {
        if k < |s.workers| {
          assert s'.workers[k] == s.workers[k];
        }
      }
    }
  }

  lemma SpawnBounded(pool: Scaling, s: PoolState, record: Instance, fate: Fate)
    requires Bounded(pool, s) && Sane(s.w) && Enabled(pool, s, Spawn(record, fate))
    ensures Bounded(pool, DoSpawn(s, record, fate))
  {
    if Inserts(s.w, record, fate) {
      InsertCounts(s.w, record);
    }
  }

  lemma SpawnKeeps(pool: Scaling, s: PoolState, record: Instance, fate: Fate)
    requires Inv(pool, s) && Enabled(pool, s, Spawn(record, fate))
    ensures Inv(pool, Do(pool, s, Spawn(record, fate)))
  {
    SpawnBounded(pool, s, record, fate);
    SpawnThreads(s, record, fate);
    B.StartedKeeps(s.bootstrap, Limits(pool), s.w.clock);
    if Inserts(s.w, record, fate) {
      InsertSane(s.w, record);
    }
  }

  lemma ProceedThreads(s: PoolState, k: nat, effect: Effect, pc: P.Pc)
    requires Sane(s.w) && Threads(s) && k < |s.workers| && s.phase == Provisioning
    requires Possible(s.w, effect) && P.Own(s.w, s.workers[k], effect)
    requires P.Follows(Effected(s.w, effect), s.workers[k].(pc := pc))
    ensures Threads(s.(w := Effected(s.w, effect), workers := s.workers[k := s.workers[k].(pc := pc)]))
  {
    var me, w' := s.workers[k], Effected(s.w, effect);
    forall j | 0 <= j < |s.workers| && j != k
      ensures P.Follows(w', s.workers[j])
    {
      P.OthersFollow(s.w, me, effect, s.workers[j]);
    }
  }

  lemma ProceedKeeps(pool: Scaling, s: PoolState, k: nat, choice: P.Choice)
    requires Inv(pool, s) && Enabled(pool, s, Proceed(k, choice))
    ensures Inv(pool, Do(pool, s, Proceed(k, choice)))
    ensures Do(pool, s, Proceed(k, choice)).refused == s.refused
  {
    hide P.Step, P.Follows, P.Fits, Sane, Effected;
    var me := s.workers[k];
    var m := P.Step(s.w, me, choice);
    P.StepSafe(s.w, me, choice);
    P.GuardsAccept(s.w, me, choice);
    EffectedSane(s.w, m.effect);
    OwnStepCounts(s.w, me, m.effect);
    OwnStepClaims(s.w, me, m.effect, s.claims);
    ProceedThreads(s, k, m.effect, m.pc);
    ProceedDone(pool, s, k, choice);
    EffectTakesNoTime(s.w, m.effect);
    hide Inv, Enabled, Do, Sane, Threads, P.Follows, P.Fits, P.Step, P.Own, Possible, Effected;
    StoresMoved(pool, s, s.(w := Effected(s.w, m.effect), workers := s.workers[k := me.(pc := m.pc)]));
  }

  lemma ProceedDone(pool: Scaling, s: PoolState, k: nat, choice: P.Choice)
    requires k < |s.workers|
    ensures var m := P.Step(s.w, s.workers[k], choice);
            && Do(pool, s, Proceed(k, choice)) ==
               s.(w := Effected(s.w, m.effect), workers := s.workers[k := s.workers[k].(pc := m.pc)],
                  refused := s.refused + if m.refused then 1 else 0)
  {
    hide P.Step, Effected;
  }

  lemma StoresMoved(pool: Scaling, s: PoolState, s': PoolState)
    requires Inv(pool, s) && s.phase == Provisioning && s' == s.(w := s'.w, workers := s'.workers)
    requires Sane(s'.w) && Bounded(pool, s') && Threads(s') && s'.w.clock == s.w.clock
    ensures Inv(pool, s')
  {}

  lemma OwnStepCounts(w: World, k: P.Worker, e: Effect)
    requires Sane(w) && Possible(w, e) && P.Own(w, k, e)
    ensures |Active(Effected(w, e).records)| <= |Active(w.records)|
    ensures |Booting(Effected(w, e))| <= |Booting(w)|
  {
    if e.Write? {
      WriteCounts(w, e.row);
    }
  }

  lemma OwnStepClaims(w: World, k: P.Worker, e: Effect, claims: set<string>)
    requires P.Own(w, k, e) && k.name in claims
    requires w.vms.Keys <= claims && w.pending.Keys <= claims
    ensures Effected(w, e).vms.Keys <= claims && Effected(w, e).pending.Keys <= claims
  {}

  lemma HistoryReplaced(pool: Scaling, s: PoolState, h: B.History)
    requires Inv(pool, s) && B.Keeps(h, Limits(pool), s.w.clock)
    requires s.phase == Maintaining || h.granted == 0
    ensures Inv(pool, s.(bootstrap := h))
  {}

  lemma BreakerKeeps(pool: Scaling, s: PoolState, l: Label)
    requires Inv(pool, s) && Enabled(pool, s, l) && (l.Reserve? || l.Hold? || l.Reset?)
    ensures Inv(pool, Do(pool, s, l))
  {
    var h := Do(pool, s, l).bootstrap;
    if l.Reserve? {
      B.ReservedKeeps(s.bootstrap, Limits(pool), l.wanted, s.w.clock, l.fate);
    } else if l.Hold? {
      B.HeldKeeps(s.bootstrap, Limits(pool), s.w.clock, l.fate);
    }
    HistoryReplaced(pool, s, h);
  }

  lemma PhaseKeeps(pool: Scaling, s: PoolState, l: Label)
    requires Inv(pool, s) && Enabled(pool, s, l)
    requires l.BeginPass? || l.RefusedCall? || l.SweepDone?
    ensures Inv(pool, Do(pool, s, l))
  {}

  lemma Stopped(pool: Scaling, s: PoolState, h: B.History, b: Book)
    requires Inv(pool, s) && BookKept(b) && B.Keeps(h, Limits(pool), s.w.clock) && h.granted == 0
    ensures Inv(pool, s.(phase := Idle, workers := [], bootstrap := h, book := b))
  {}

  lemma StopKeeps(pool: Scaling, s: PoolState, l: Label)
    requires Inv(pool, s) && Enabled(pool, s, l) && (l.EndPass? || l.Crash?)
    ensures Inv(pool, Do(pool, s, l))
  {
    Stopped(pool, s, B.Abandoned(s.bootstrap), Booked(s.book, l));
  }

  lemma BookReplaced(pool: Scaling, s: PoolState, b: Book)
    requires Inv(pool, s) && BookKept(b)
    ensures Inv(pool, s.(book := b))
  {}

  lemma BookKeeps(pool: Scaling, s: PoolState, l: Label)
    requires Inv(pool, s) && Enabled(pool, s, l)
    requires l.StartRun? || l.ProgressRun? || l.FinishRun? || l.InterruptRun?
    ensures Inv(pool, Do(pool, s, l))
  {
    BookReplaced(pool, s, Booked(s.book, l));
  }

  /** The labels that only move the pass or its bookkeeping on. */
  lemma OwnLabelKeeps(pool: Scaling, s: PoolState, l: Label)
    requires Inv(pool, s) && Enabled(pool, s, l)
    requires !l.StoreCall? && !l.DeleteVm? && !l.DeleteRunner? && !l.BeginProvisioning? && !l.Spawn? && !l.Proceed?
    requires !l.SettleLate? && !l.Outside?
    ensures Inv(pool, Do(pool, s, l))
  {
    if l.StartRun? || l.ProgressRun? || l.FinishRun? || l.InterruptRun? {
      BookKeeps(pool, s, l);
    } else if l.Reserve? || l.Hold? || l.Reset? {
      BreakerKeeps(pool, s, l);
    } else if l.EndPass? || l.Crash? {
      StopKeeps(pool, s, l);
    } else {
      PhaseKeeps(pool, s, l);
    }
  }

  lemma PassLabelKeeps(pool: Scaling, s: PoolState, l: Label)
    requires Inv(pool, s) && Enabled(pool, s, l) && (l.StoreCall? || l.DeleteVm? || l.DeleteRunner?)
    ensures Inv(pool, Do(pool, s, l))
  {
    if l.StoreCall? {
      StoreCallKeeps(pool, s, l.id, l.call);
    } else if l.DeleteVm? {
      DeleteKeeps(pool, s, DropVm(l.name));
    } else {
      DeleteKeeps(pool, s, DropRunner(l.runner));
    }
  }

  lemma StartLabelKeeps(pool: Scaling, s: PoolState, l: Label)
    requires Inv(pool, s) && Enabled(pool, s, l) && (l.BeginProvisioning? || l.Spawn? || l.Proceed?)
    ensures Inv(pool, Do(pool, s, l))
  {
    if l.BeginProvisioning? {
      BeginProvisioningKeeps(pool, s);
    } else if l.Spawn? {
      SpawnKeeps(pool, s, l.record, l.fate);
    } else {
      ProceedKeeps(pool, s, l.k, l.choice);
    }
  }

  /** Whatever call comes next and whatever becomes of it. */
  lemma StepKeeps(pool: Scaling, s: PoolState, l: Label)
    requires Inv(pool, s) && Enabled(pool, s, l)
    ensures Inv(pool, Do(pool, s, l))
  {
    if l.StoreCall? || l.DeleteVm? || l.DeleteRunner? {
      PassLabelKeeps(pool, s, l);
    } else if l.BeginProvisioning? || l.Spawn? || l.Proceed? {
      StartLabelKeeps(pool, s, l);
    } else if l.SettleLate? {
      SettleLateKeeps(pool, s, l.name, l.landed);
    } else if l.Outside? {
      OutsideKeeps(pool, s, l.runners, l.vms, l.clock);
    } else {
      OwnLabelKeeps(pool, s, l);
    }
  }

  lemma SettleLateKeeps(pool: Scaling, s: PoolState, name: string, landed: bool)
    requires Inv(pool, s) && Enabled(pool, s, SettleLate(name, landed))
    ensures Inv(pool, Do(pool, s, SettleLate(name, landed)))
  {
    SettleSane(s.w, name, landed);
  }
}
