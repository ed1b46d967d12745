/** The provisioning part of a pass: how many goroutines it starts, what it knows of them, and
    the pass as a whole. */
module Starts {
  import opened Arithmetic
  import opened Lifecycle
  import opened Records
  import opened InstanceStore
  import opened Scheduler
  import opened Stores
  import opened Protocol
  import opened Runs
  import opened Retirement
  import opened Recovery
  import S = Servers
  import B = Breaker
  import P = Provision
  import I = Incidents
  import Config

  // ---- provisioning ----

  /** Provisioning since `s0`: the row of the circuit breaker is not touched meanwhile. */
  ghost predicate Underway(s0: PoolState, s: PoolState) {
    && s.phase == Provisioning && s.bootstrap.row == s0.bootstrap.row && s.refused == s0.refused && s.book == s0.book
    && |s.workers| + s.bootstrap.granted <= s0.bootstrap.granted
    && s0.w.clock <= s.w.clock
  }

  /** Every record that is new since then belongs to the pool and is named after it and its ID. */
  ghost predicate NewlyOwn(poolName: string, w0: World, w: World) {
    forall id :: id in w.records && id !in w0.records ==>
      && w.records[id].pool == poolName && |id| >= 12 && w.records[id].name == Config.InstanceName(poolName, id)
  }

  lemma StillOwn(poolName: string, w0: World, w: World, w': World)
    requires NewlyOwn(poolName, w0, w) && w'.records == w.records
    ensures NewlyOwn(poolName, w0, w')
  {}

  lemma SpawnOwn(poolName: string, w0: World, pool: Scaling, s: PoolState, record: Instance, fate: Fate)
    requires NewlyOwn(poolName, w0, s.w) && |record.id| >= 12
    requires record.pool == poolName && record.name == Config.InstanceName(poolName, record.id)
    ensures NewlyOwn(poolName, w0, Do(pool, s, Spawn(record, fate)).w)
  {
    hide Config.InstanceName;
    SpawnDone(pool, s, record, fate);
    hide Do, Effected;
  }

  lemma SpawnDone(pool: Scaling, s: PoolState, record: Instance, fate: Fate)
    ensures var records := Do(pool, s, Spawn(record, fate)).w.records;
            records == s.w.records || records == s.w.records[record.id := record]
  {}

  lemma ProceedOwn(poolName: string, w0: World, pool: Scaling, start: PoolState, journal: seq<Label>, s: PoolState,
                   k: nat, choice: P.Choice)
    requires NewlyOwn(poolName, w0, s.w) && Reached(pool, start, journal, s)
    requires Enabled(pool, s, Proceed(k, choice))
    ensures NewlyOwn(poolName, w0, Do(pool, s, Proceed(k, choice)).w)
  {
    hide NewlyOwn, P.Step;
    ReachedInv(pool, start, journal, s);
    P.StepSafe(s.w, s.workers[k], choice);
    ProceedDone(pool, s, k, choice);
    EffectOwn(poolName, w0, s.w, s.workers[k], P.Step(s.w, s.workers[k], choice).effect);
  }

  lemma EffectOwn(poolName: string, w0: World, w: World, k: P.Worker, e: Effect)
    requires NewlyOwn(poolName, w0, w) && Possible(w, e) && P.Own(w, k, e)
    ensures NewlyOwn(poolName, w0, Effected(w, e))
  {}

  ghost function Successes(workers: seq<P.Worker>): nat {
    if workers == [] then 0
    else Successes(workers[..|workers| - 1]) + if workers[|workers| - 1].pc == P.Done(true) then 1 else 0
  }

  ghost predicate Provisioned(s0: PoolState, s: PoolState) {
    && s.phase == Provisioning && s.bootstrap.row == s0.bootstrap.row && s.refused == s0.refused && s.book == s0.book
    && s.bootstrap.granted == 0 && AllDone(s.workers)
    && s0.w.clock <= s.w.clock
  }

  ghost function TotalLeft(workers: seq<P.Worker>): nat {
    if workers == [] then 0 else TotalLeft(workers[..|workers| - 1]) + P.Left(workers[|workers| - 1].pc)
  }

  lemma {:induction false} TotalLeftFalls(workers: seq<P.Worker>, k: nat, worker: P.Worker)
    requires k < |workers| && P.Left(worker.pc) < P.Left(workers[k].pc)
    ensures TotalLeft(workers[k := worker]) < TotalLeft(workers)
  {
    var last := |workers| - 1;
    if k == last {
      assert workers[k := worker][..last] == workers[..last];
    } else {
      TotalLeftFalls(workers[..last], k, worker);
      assert workers[k := worker][..last] == workers[..last][k := worker];
    }
  }

  lemma BegunUnderway(pool: Scaling, start: PoolState, journal: seq<Label>, s: PoolState)
    requires Reached(pool, start, journal, s) && s.phase == Maintaining
    ensures Underway(s, Do(pool, s, BeginProvisioning))
  {
    ReachedInv(pool, start, journal, s);
  }

  lemma ProceedFacts(pool: Scaling, start: PoolState, journal: seq<Label>, s: PoolState, k: nat, choice: P.Choice)
    requires Reached(pool, start, journal, s)
    requires Enabled(pool, s, Proceed(k, choice)) && !s.workers[k].pc.Done?
    ensures var s' := Do(pool, s, Proceed(k, choice));
            && s'.phase == s.phase && s'.bootstrap == s.bootstrap && s'.refused == s.refused && s'.book == s.book
            && s'.w.clock == s.w.clock
            && |s'.workers| == |s.workers| && TotalLeft(s'.workers) < TotalLeft(s.workers)
  {
    ReachedInv(pool, start, journal, s);
    ProceedKeeps(pool, s, k, choice);
    EffectTakesNoTime(s.w, P.Step(s.w, s.workers[k], choice).effect);
    P.StepsRunOut(s.w, s.workers[k], choice);
    TotalLeftFalls(s.workers, k, s.workers[k].(pc := P.Step(s.w, s.workers[k], choice).pc));
  }

  /** The limit is reached and no probe is due. */
  ghost predicate CircuitOpen(pool: Scaling, s: PoolState) {
    var row := s.bootstrap.row;
    row.attempts == pool.attemptLimit && (row.retryAt == 0 || s.w.clock < row.retryAt)
  }

  /** A success closes the circuit. Without one the attempts that were charged stay charged,
      and at the limit the next probe is put off by the retry interval from now. */
  ghost predicate RowSettled(pool: Scaling, s: PoolState, succeeded: nat, charged: nat, since: Time) {
    var row := s.bootstrap.row;
    && (succeeded > 0 ==> row == B.Row(0, 0))
    && (succeeded == 0 ==> row.attempts == charged)
    && (succeeded == 0 && charged == pool.attemptLimit ==>
          since + pool.retryInterval <= row.retryAt <= s.w.clock + pool.retryInterval)
  }

  /** The attempts on account of so many starts: a probe costs none. */
  function Charged(pool: Scaling, s: PoolState, starts: int): int {
    var row := s.bootstrap.row;
    if row.attempts < pool.attemptLimit then row.attempts + starts else row.attempts
  }

  /** The row at the limit once the next probe has a time: the one it has, or one retry
      interval from now. */
  function ProbeSet(pool: Scaling, s: PoolState): B.Row {
    var row := s.bootstrap.row;
    if row.retryAt == 0 then row.(retryAt := s.w.clock + pool.retryInterval) else row
  }

  /** All goroutines of the pass have ended, and some has not succeeded, or has not even
      inserted its record. */
  ghost predicate StartFailed(s: PoolState, starts: int) {
    s.phase == Provisioning && s.bootstrap.granted == 0 && AllDone(s.workers) && Successes(s.workers) < starts
  }

  ghost predicate SomeStartFailed(pool: Scaling, start: PoolState, journal: seq<Label>, from: nat, starts: int) {
    exists m: nat, v: PoolState :: from <= m <= |journal| && Was(pool, start, journal[..m], v) && StartFailed(v, starts)
  }

  lemma StartFailedNow(pool: Scaling, start: PoolState, journal: seq<Label>, later: seq<Label>, from: nat, s: PoolState,
                       starts: int)
    requires Reached(pool, start, journal, s) && from <= |journal| && journal <= later && StartFailed(s, starts)
    ensures SomeStartFailed(pool, start, later, from, starts)
  {
    WasNow(pool, start, journal, s);
    assert later[..|journal|] == journal;
  }

  lemma StartFailedStill(pool: Scaling, start: PoolState, journal: seq<Label>, from: nat, earlier: nat, starts: int)
    requires SomeStartFailed(pool, start, journal, from, starts) && earlier <= from
    ensures SomeStartFailed(pool, start, journal, earlier, starts)
  {
    var m: nat, v: PoolState :|
      from <= m <= |journal| && Was(pool, start, journal[..m], v) && StartFailed(v, starts);
  }

  /** At some moment of the pass as many goroutines had succeeded as there were starts. */
  ghost predicate StartsSucceeded(pool: Scaling, start: PoolState, journal: seq<Label>, from: nat, starts: int) {
    exists m: nat, v: PoolState ::
      from <= m <= |journal| && Was(pool, start, journal[..m], v) && Successes(v.workers) >= starts
  }

  lemma StartsSucceededStill(pool: Scaling, start: PoolState, journal: seq<Label>, later: seq<Label>, from: nat,
                             earlier: nat, starts: int)
    requires StartsSucceeded(pool, start, journal, from, starts) && journal <= later && earlier <= from
    ensures StartsSucceeded(pool, start, later, earlier, starts)
  {
    var m: nat, v: PoolState :|
      from <= m <= |journal| && Was(pool, start, journal[..m], v) && Successes(v.workers) >= starts;
    assert later[..m] == journal[..m];
  }

  /** A pass that has come to its end without a failed start. */
  lemma NoStartFailed(pool: Scaling, start: PoolState, journal: seq<Label>, s: PoolState, from: nat, starts: int)
    requires Reached(pool, start, journal, s) && from <= |journal| && Enabled(pool, s, EndPass)
    requires s.phase != Provisioning ==> starts <= 0
    ensures !StartFailed(s, starts) ==> StartsSucceeded(pool, start, journal, from, starts)
  {
    WasNow(pool, start, journal, s);
    assert journal[..|journal|] == journal;
  }

  lemma {:induction false} SuccessesCount(workers: seq<P.Worker>)
    ensures Successes(workers) > 0 <==> SomeSuccess(workers)
  {
    if workers != [] {
      var init := workers[..|workers| - 1];
      SuccessesCount(init);
      if SomeSuccess(init) {
        var k :| 0 <= k < |init| && init[k].pc == P.Done(true);
        assert workers[k].pc == P.Done(true);
      }
      if SomeSuccess(workers) {
        var k :| 0 <= k < |workers| && workers[k].pc == P.Done(true);
        assert k < |init| ==> init[k].pc == P.Done(true);
      }
    }
  }

  /** All that is needed while the limit leaves room, the rest of the limit if it does not,
      one probe once a retry is due, and otherwise none. */
  ghost function StartsAllowed(pool: Scaling, s: PoolState, needed: nat): int {
    var row := s.bootstrap.row;
    if needed == 0 then 0
    else if row.attempts < pool.attemptLimit then Min(needed, pool.attemptLimit - row.attempts)
    else if row.retryAt != 0 && row.retryAt <= s.w.clock then 1
    else 0
  }

  lemma BreakerSound(pool: Scaling, start: PoolState, journal: seq<Label>, s: PoolState)
    requires Reached(pool, start, journal, s)
    ensures s.bootstrap.row.attempts <= pool.attemptLimit && pool.attemptLimit >= 1
  {
    ReachedInv(pool, start, journal, s);
  }

  lemma NothingReserved(pool: Scaling, start: PoolState, journal: seq<Label>, s: PoolState)
    requires Reached(pool, start, journal, s) && s.phase == Sweeping
    ensures s.bootstrap.granted == 0
  {
    ReachedInv(pool, start, journal, s);
  }

  // ---- the pass as a whole ----

  /** In state `v` so many were needed, and the circuit breaker allowed `starts` of them. */
  ghost predicate AskedIn(pool: Scaling, v: PoolState, waiting: nat, starts: int) {
    starts == StartsAllowed(pool, v, NeededFor(DemandAt(pool, v, waiting)))
  }

  /** The starts were asked for in a state the pass has gone through since; and if there were
      any, no record had changed until then, so that no VM had been retired. */
  ghost predicate StartedSince(pool: Scaling, start: PoolState, journal: seq<Label>, from: nat,
                               records: map<string, Instance>, waiting: nat, starts: int) {
    exists k: nat, v: PoolState ::
      from <= k <= |journal| && StartedIn(pool, start, journal[..k], v, records, waiting, starts)
  }

  ghost predicate StartedIn(pool: Scaling, start: PoolState, journal: seq<Label>, v: PoolState,
                            records: map<string, Instance>, waiting: nat, starts: int) {
    Was(pool, start, journal, v) && AskedIn(pool, v, waiting, starts) && (starts > 0 ==> v.w.records == records)
  }

  lemma StartedNow(pool: Scaling, start: PoolState, journal: seq<Label>, later: seq<Label>, from: nat, s: PoolState,
                   records: map<string, Instance>, waiting: nat, starts: int)
    requires Reached(pool, start, journal, s) && from <= |journal| && journal <= later
    requires AskedIn(pool, s, waiting, starts) && (starts > 0 ==> s.w.records == records)
    ensures StartedSince(pool, start, later, from, records, waiting, starts)
  {
    WasNow(pool, start, journal, s);
    assert later[..|journal|] == journal;
    assert StartedIn(pool, start, later[..|journal|], s, records, waiting, starts);
  }

  /** A whole pass: all records were dealt with, and then as many starts were made as were
      needed, none if a VM was retired in between. */
  ghost predicate Reconciled(pool: Scaling, start: PoolState, journal: seq<Label>, from: nat, w0: World, waiting: nat,
                             starts: int) {
    exists m: nat, v: PoolState ::
      from <= m <= |journal| && RecoveredAt(pool, start, journal[..m], from, w0, v) &&
      StartedSince(pool, start, journal, m, v.w.records, waiting, starts)
  }

  /** What is filed for a pass, if anything is: a success for one that was whole and in which
      nothing has failed, but perhaps the filing itself, and a failure for one in which some
      call or some start has failed. */
  ghost predicate FiledRightly(pool: Scaling, start: PoolState, journal: seq<Label>, from: nat, w0: World, waiting: nat,
                               starts: int, filings: seq<RunRow>, later: seq<RunRow>, faults: int) {
    || (later == filings && faults > 0)
    || (&& |later| == |filings| + 1 && later[..|filings|] == filings
        && later[|filings|].state != I.RunRunning
        && (later[|filings|].state == I.RunSucceeded ==>
              && Reconciled(pool, start, journal, from, w0, waiting, starts)
              && StartsSucceeded(pool, start, journal, from, starts) && faults <= 1)
        && (later[|filings|].state == I.RunFailed ==>
              faults > 0 || SomeStartFailed(pool, start, journal, from, starts)))
  }

  lemma FiledOne(pool: Scaling, start: PoolState, journal: seq<Label>, from: nat, w0: World, waiting: nat, starts: int,
                 filings: seq<RunRow>, filing: RunRow, faults: int)
    requires filing.state != I.RunRunning
    requires filing.state == I.RunSucceeded ==>
               && Reconciled(pool, start, journal, from, w0, waiting, starts)
               && StartsSucceeded(pool, start, journal, from, starts) && faults <= 1
    requires filing.state == I.RunFailed ==> faults > 0 || SomeStartFailed(pool, start, journal, from, starts)
    ensures FiledRightly(pool, start, journal, from, w0, waiting, starts, filings, filings + [filing], faults)
  {
    hide Reconciled, SomeStartFailed, StartsSucceeded;
  }

  /** After the pass that began at `first` has ended in `ended`, its result is filed. */
  lemma PassFiled(pool: Scaling, start: PoolState, soFar: seq<Label>, journal: seq<Label>, first: nat, from: nat,
                  w0: World, waiting: nat, starts: int, ended: PoolState, filings: seq<RunRow>, filing: RunRow,
                  faults: int)
    requires soFar <= journal && from <= first <= |soFar| && Reached(pool, start, soFar, ended)
    requires Enabled(pool, ended, EndPass) && (ended.phase != Provisioning ==> starts <= 0)
    requires filing.state == I.RunSucceeded || filing.state == I.RunFailed
    requires filing.state == I.RunSucceeded ==>
               Reconciled(pool, start, soFar, first, w0, waiting, starts) && !StartFailed(ended, starts) && faults <= 1
    requires filing.state == I.RunFailed ==> faults > 0 || StartFailed(ended, starts)
    ensures FiledRightly(pool, start, journal, from, w0, waiting, starts, filings, filings + [filing], faults)
    ensures filing.state == I.RunSucceeded ==> Reconciled(pool, start, journal, from, w0, waiting, starts)
  {
    hide Reconciled, StartFailed, SomeStartFailed, StartsSucceeded, Enabled;
    NoStartFailed(pool, start, soFar, ended, from, starts);
    if filing.state == I.RunSucceeded {
      ReconciledWhole(pool, start, soFar, journal, first, from, w0, w0, waiting, starts);
      StartsSucceededStill(pool, start, soFar, journal, from, from, starts);
    } else if StartFailed(ended, starts) {
      StartFailedNow(pool, start, soFar, journal, from, ended, starts);
    }
    FiledOne(pool, start, journal, from, w0, waiting, starts, filings, filing, faults);
  }

  lemma NothingFiled(pool: Scaling, start: PoolState, journal: seq<Label>, from: nat, w0: World, waiting: nat,
                     starts: int, filings: seq<RunRow>, faults: int)
    requires faults > 0
    ensures FiledRightly(pool, start, journal, from, w0, waiting, starts, filings, filings, faults)
  {}

  lemma FiledLater(pool: Scaling, start: PoolState, journal: seq<Label>, from: nat, earlier: nat, w1: World, w0: World,
                   waiting: nat, starts: int, filings: seq<RunRow>, later: seq<RunRow>, faults: int)
    requires FiledRightly(pool, start, journal, from, w1, waiting, starts, filings, later, faults)
    requires earlier <= from && S.Ages(w0, w1) && w1.records == w0.records
    ensures FiledRightly(pool, start, journal, earlier, w0, waiting, starts, filings, later, faults)
  {
    hide Reconciled, SomeStartFailed, StartsSucceeded;
    if |later| == |filings| + 1 {
      if later[|filings|].state == I.RunSucceeded {
        ReconciledWhole(pool, start, journal, journal, from, earlier, w1, w0, waiting, starts);
        StartsSucceededStill(pool, start, journal, journal, from, earlier, starts);
      } else if SomeStartFailed(pool, start, journal, from, starts) {
        StartFailedStill(pool, start, journal, from, earlier, starts);
      }
    }
  }

  lemma RecoveredThenStarted(pool: Scaling, start: PoolState, recovered: seq<Label>, journal: seq<Label>, from: nat,
                             w0: World, v: PoolState, waiting: nat, starts: int)
    requires recovered <= journal && from <= |recovered| && RecoveredAt(pool, start, recovered, from, w0, v)
    requires StartedSince(pool, start, journal, |recovered|, v.w.records, waiting, starts)
    ensures Reconciled(pool, start, journal, from, w0, waiting, starts)
  {
    assert journal[..|recovered|] == recovered;
  }

  lemma StartedStill(pool: Scaling, start: PoolState, journal: seq<Label>, later: seq<Label>, from: nat, earlier: nat,
                     records: map<string, Instance>, waiting: nat, starts: int)
    requires StartedSince(pool, start, journal, from, records, waiting, starts) && journal <= later && earlier <= from
    ensures StartedSince(pool, start, later, earlier, records, waiting, starts)
  {
    var k: nat, v: PoolState :| from <= k <= |journal| &&
      StartedIn(pool, start, journal[..k], v, records, waiting, starts);
    assert later[..k] == journal[..k];
  }

  lemma ReconciledWhole(pool: Scaling, start: PoolState, journal: seq<Label>, later: seq<Label>, from: nat,
                        earlier: nat, w1: World, w0: World, waiting: nat, starts: int)
    requires journal <= later && earlier <= from && Reconciled(pool, start, journal, from, w1, waiting, starts)
    requires S.Ages(w0, w1) && w1.records == w0.records
    ensures Reconciled(pool, start, later, earlier, w0, waiting, starts)
  {
    var m: nat, v: PoolState :|
      from <= m <= |journal| && RecoveredAt(pool, start, journal[..m], from, w1, v) &&
      StartedSince(pool, start, journal, m, v.w.records, waiting, starts);
    RecoveredBefore(pool, start, journal[..m], from, earlier, w1, w0, v);
    StartedStill(pool, start, journal, later, m, m, v.w.records, waiting, starts);
    assert later[..m] == journal[..m];
  }

  lemma PassMoves(pool: Scaling, s: PoolState, runId: string)
    requires s.phase == Idle && s.w.pending == map[] && s.book.owed == Some(runId)
    ensures Enabled(pool, s, BeginPass) && Do(pool, s, BeginPass) == s.(phase := Sweeping)
  {}

  lemma PassEnds(pool: Scaling, s: PoolState, runId: string)
    requires s.book.owed == Some(runId)
    ensures var s' := Do(pool, s, EndPass);
            && s' == s.(phase := Idle, workers := [], bootstrap := B.Abandoned(s.bootstrap))
            && Enabled(pool, s', FinishRun(runId, I.RunSucceeded, Commits))
            && Enabled(pool, s', FinishRun(runId, I.RunFailed, Commits))
  {}

  // ---- whole runs ----

  ghost predicate InOrder(pool: Scaling, start: PoolState, s: PoolState) {
    WithinLimits(s) && s.ceilings == start.ceilings && WithinRate(pool, s) && s.refused == start.refused
  }

  lemma AlwaysInOrder(pool: Scaling, start: PoolState, journal: seq<Label>, s: PoolState)
    requires Reached(pool, start, journal, s) && s.refused == start.refused
    ensures forall k :: 0 <= k <= |journal| ==> InOrder(pool, start, Exec(pool, start, journal[..k]))
    ensures Deliberate(pool, start, journal)
  {
    ReachedMeans(pool, start, journal, s);
    forall k | 0 <= k <= |journal|
      ensures InOrder(pool, start, Exec(pool, start, journal[..k]))
    {
      MomentInOrder(pool, start, journal, k);
    }
  }

  lemma MomentInOrder(pool: Scaling, start: PoolState, journal: seq<Label>, k: nat)
    requires Inv(pool, start) && Legal(pool, start, journal) && k <= |journal|
    requires Exec(pool, start, journal).refused == start.refused
    ensures InOrder(pool, start, Exec(pool, start, journal[..k]))
  {
    PrefixLegal(pool, start, journal, k);
    RunKeeps(pool, start, journal[..k]);
    InvBounds(pool, Exec(pool, start, journal[..k]));
    InvPaces(pool, Exec(pool, start, journal[..k]));
    CeilingsFixed(pool, start, journal[..k]);
    NeverRefusedBefore(pool, start, journal, k);
  }
}
