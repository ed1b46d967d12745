/** What a pass has made of the records that were there when it began. Each record was dealt
    with at some moment of the pass, as its state, its age, its retry time and the status of
    its runner at that moment demand. */
module Recovery {
  import opened Lifecycle
  import opened Records
  import opened Scheduler
  import opened Stores
  import opened Protocol
  import opened Runs
  import opened Cleanups
  import opened Sweeps
  import S = Servers

  const MISSING := "managed instance is missing"

  /** `x` was dealt with in state `v`, which the pass has gone through. */
  ghost predicate HandledIn(pool: Scaling, v: PoolState, x: Instance, w0: World, w: World) {
    x.state != Finished && S.Ages(w0, v.w) && Handled(x, v.w, w, pool.maxLifetime)
  }

  ghost predicate HandledSince(pool: Scaling, start: PoolState, journal: seq<Label>, from: nat, x: Instance,
                               w0: World, w: World) {
    exists m: nat, v: PoolState ::
      from <= m <= |journal| && Was(pool, start, journal[..m], v) && HandledIn(pool, v, x, w0, w)
  }

  lemma HandledNow(pool: Scaling, start: PoolState, journal: seq<Label>, later: seq<Label>, from: nat, s: PoolState,
                   x: Instance, w0: World, w: World)
    requires Reached(pool, start, journal, s) && from <= |journal| && journal <= later
    requires x.state != Finished && S.Ages(w0, s.w) && Handled(x, s.w, w, pool.maxLifetime)
    ensures HandledSince(pool, start, later, from, x, w0, w)
  {
    WasNow(pool, start, journal, s);
    assert later[..|journal|] == journal;
    assert Was(pool, start, later[..|journal|], s) && HandledIn(pool, s, x, w0, w);
  }

  lemma HandledStill(pool: Scaling, start: PoolState, journal: seq<Label>, later: seq<Label>, from: nat, x: Instance,
                     w0: World, w: World, w': World)
    requires HandledSince(pool, start, journal, from, x, w0, w) && journal <= later
    requires x.id in w.records && x.id in w'.records && w'.records[x.id] == w.records[x.id] && S.Ages(w, w')
    ensures HandledSince(pool, start, later, from, x, w0, w')
  {
    var m: nat, v: PoolState :|
      from <= m <= |journal| && Was(pool, start, journal[..m], v) && HandledIn(pool, v, x, w0, w);
    HandledStays(x, v.w, w, w', pool.maxLifetime);
    assert later[..m] == journal[..m];
    assert Was(pool, start, later[..m], v) && HandledIn(pool, v, x, w0, w');
  }

  /** Without an error of the pass, a record was given up because its VM was gone when the
      pass swept, or it was dealt with. */
  ghost predicate Recovered(pool: Scaling, start: PoolState, journal: seq<Label>, from: nat, w0: World, w: World) {
    forall id :: Live(w0, id) ==> RecoveredRecord(pool, start, journal, from, w0.records[id], w0, w)
  }

  ghost predicate RecoveredRecord(pool: Scaling, start: PoolState, journal: seq<Label>, from: nat, x: Instance,
                                  w0: World, w: World) {
    || (x.state != Finished && (x.state == Ready || x.state == Running) &&
        Ended(x, Failed, InstanceMissing, MISSING, w))
    || HandledSince(pool, start, journal, from, x, w0, w)
  }

  // ---- the loop over the second list ----

  /** Where the loop stands: the records before `k` have been dealt with. */
  ghost predicate Dispatched(pool: Scaling, start: PoolState, journal: seq<Label>, from: nat, w0: World,
                             s1: PoolState, s: PoolState, list: seq<Instance>, k: nat) {
    && Unread(s, list, k) && Passes(s1, s) && S.Ages(w0, s1.w)
    && (forall id :: id in s1.w.records && s1.w.records[id].state == Finished ==> s.w.records[id] == s1.w.records[id])
    && (forall j :: 0 <= j < k ==>
          list[j].id in s.w.records && HandledSince(pool, start, journal, from, list[j], w0, s.w))
  }

  lemma OneMoreDispatched(pool: Scaling, start: PoolState, journal: seq<Label>, later: seq<Label>, from: nat,
                          w0: World, s1: PoolState, s: PoolState, s': PoolState, list: seq<Instance>, k: nat)
    requires Reached(pool, start, journal, s) && from <= |journal| && journal <= later
    requires Dispatched(pool, start, journal, from, w0, s1, s, list, k) && k < |list| && Spares(s, s', list[k])
    requires Handled(list[k], s.w, s'.w, pool.maxLifetime)
    requires list[k].id in s1.w.records && s1.w.records[list[k].id].state != Finished
    ensures Dispatched(pool, start, later, from, w0, s1, s', list, k + 1)
  {
    SparedUnread(s, s', list, k);
    HandledNow(pool, start, journal, later, from, s, list[k], w0, s'.w);
    forall j | 0 <= j < k
      ensures list[j].id in s'.w.records && HandledSince(pool, start, later, from, list[j], w0, s'.w)
    {
      HandledStill(pool, start, journal, later, from, list[j], w0, s.w, s'.w);
    }
  }

  /** The states at the beginning of the pass, at the beginning and end of its sweep, and when
      the second list was read. */
  ghost predicate SweptSince(s0: PoolState, sc: PoolState, collected: PoolState, s1: PoolState) {
    && Wired(s0.w) && S.Drifts(s0, sc) && Collected(sc, collected, true)
    && S.Drifts(collected.(phase := Maintaining), s1)
  }

  lemma BeginDispatch(pool: Scaling, start: PoolState, journal: seq<Label>, from: nat, s0: PoolState, sc: PoolState,
                      collected: PoolState, s1: PoolState, list: seq<Instance>)
    requires SweptSince(s0, sc, collected, s1) && Lists(list, s1.w.records)
    ensures Dispatched(pool, start, journal, from, s0.w, s1, s1, list, 0)
  {}

  lemma AllDispatched(pool: Scaling, start: PoolState, journal: seq<Label>, from: nat, s0: PoolState, sc: PoolState,
                      collected: PoolState, s1: PoolState, s: PoolState, list: seq<Instance>)
    requires SweptSince(s0, sc, collected, s1) && Lists(list, s1.w.records)
    requires Dispatched(pool, start, journal, from, s0.w, s1, s, list, |list|)
    ensures Recovered(pool, start, journal, from, s0.w, s.w)
  {
    forall id | Live(s0.w, id)
      ensures RecoveredRecord(pool, start, journal, from, s0.w.records[id], s0.w, s.w)
    {
      var x := s0.w.records[id];
      assert GivenUp(x, sc.w.vms.Keys, collected.w, collected.w.records[id], true);
      if s1.w.records[id] == x {
        assert id in Active(s1.w.records);
        var j :| 0 <= j < |list| && list[j].id == id;
        assert list[j] == x;
      } else {
        assert s.w.records[id] == s1.w.records[id];
      }
    }
  }

  // ---- what recovery means for one record ----

  /** At some moment of the pass the runner had the given status, or was gone. */
  ghost predicate Showed(pool: Scaling, start: PoolState, journal: seq<Label>, from: nat, runner: int,
                         status: Option<RunnerStatus>) {
    exists m: nat, v: PoolState ::
      from <= m <= |journal| && Was(pool, start, journal[..m], v) && StatusOf(v.w.runners, runner) == status
  }

  /** The states a record can have afterwards, each with its reason. */
  ghost predicate Accounted(pool: Scaling, start: PoolState, journal: seq<Label>, from: nat, x: Instance, w0: World,
                            y: Instance, w: World) {
    && (y.state == Ready ==> x.state != Running && Showed(pool, start, journal, from, x.runner, Some(RunnerIdle)))
    && (y.state == Running ==> Showed(pool, start, journal, from, x.runner, Some(RunnerActive)))
    && (y.state == Cleaning ==> y == x && x.retryAt > w0.clock)
    && (y.state == Finished ==> Gone(w, x))
    && y.state != Bootstrapping
  }

  /** What was due has been done, with its own outcome. */
  ghost predicate DueDone(pool: Scaling, x: Instance, w0: World, w: World) {
    && x.state != Finished
    && (x.state == Cleaning && (x.retryAt == 0 || x.retryAt <= w0.clock) ==> Ended(x, x.result, x.reason, x.error, w))
    && (x.state == Bootstrapping && x.runner == 0 ==>
          Ended(x, Failed, ControllerRecovery, "controller restarted during bootstrap", w))
    && (x.state == Running && w0.clock - x.stateChangedAt >= pool.maxLifetime ==>
          Ended(x, Succeeded, MaxLifetime, "", w) || Ended(x, Failed, InstanceMissing, MISSING, w))
  }

  lemma HandledAccounted(pool: Scaling, start: PoolState, journal: seq<Label>, from: nat, m: nat, v: PoolState,
                         x: Instance, w0: World, w: World)
    requires from <= m <= |journal| && Was(pool, start, journal[..m], v) && HandledIn(pool, v, x, w0, w)
    ensures x.id in w.records && Accounted(pool, start, journal, from, x, w0, w.records[x.id], w)
    ensures DueDone(pool, x, w0, w)
  {
    assert StatusOf(v.w.runners, x.runner) == Some(RunnerIdle) ==>
           Showed(pool, start, journal, from, x.runner, Some(RunnerIdle));
    assert StatusOf(v.w.runners, x.runner) == Some(RunnerActive) ==>
           Showed(pool, start, journal, from, x.runner, Some(RunnerActive));
    HandledOutcome(pool, v, x, w0, w);
  }

  lemma HandledOutcome(pool: Scaling, v: PoolState, x: Instance, w0: World, w: World)
    requires HandledIn(pool, v, x, w0, w)
    ensures x.id in w.records
    ensures var y := w.records[x.id];
            && (y.state == Ready ==> x.state != Running && StatusOf(v.w.runners, x.runner) == Some(RunnerIdle))
            && (y.state == Running ==> StatusOf(v.w.runners, x.runner) == Some(RunnerActive))
            && (y.state == Cleaning ==> y == x && x.retryAt > w0.clock)
            && (y.state == Finished ==> Gone(w, x))
            && y.state != Bootstrapping
    ensures DueDone(pool, x, w0, w)
  {}

  /** After a pass without an error no record of an earlier process is left Bootstrapping. Each
      is adopted as Ready or Running because its runner was seen idle or active, or Finished
      with VM and runner gone, or waits for a retry in the future. Whatever was due is done. */
  lemma RecoveredMeans(pool: Scaling, start: PoolState, journal: seq<Label>, from: nat, w0: World, w: World, id: string)
    requires Recovered(pool, start, journal, from, w0, w) && Live(w0, id) && w0.records[id].id == id
    ensures var x := w0.records[id];
            id in w.records && Accounted(pool, start, journal, from, x, w0, w.records[id], w) && DueDone(pool, x, w0, w)
  {
    var x := w0.records[id];
    assert RecoveredRecord(pool, start, journal, from, x, w0, w);
    if HandledSince(pool, start, journal, from, x, w0, w) {
      var m: nat, v: PoolState :|
        from <= m <= |journal| && Was(pool, start, journal[..m], v) && HandledIn(pool, v, x, w0, w);
      HandledAccounted(pool, start, journal, from, m, v, x, w0, w);
    }
  }

  // ---- carried through the rest of the pass ----

  ghost predicate RecoveredAt(pool: Scaling, start: PoolState, journal: seq<Label>, from: nat, w0: World,
                              v: PoolState) {
    Was(pool, start, journal, v) && Recovered(pool, start, journal, from, w0, v.w)
  }

  lemma RecoveredBefore(pool: Scaling, start: PoolState, journal: seq<Label>, from: nat, earlier: nat, w1: World,
                        w0: World, v: PoolState)
    requires RecoveredAt(pool, start, journal, from, w1, v) && earlier <= from
    requires S.Ages(w0, w1) && w1.records == w0.records
    ensures RecoveredAt(pool, start, journal, earlier, w0, v)
  {
    forall id | Live(w0, id)
      ensures RecoveredRecord(pool, start, journal, earlier, w0.records[id], w0, v.w)
    {
      assert Live(w1, id);
      RecordBefore(pool, start, journal, from, earlier, w0.records[id], w1, w0, v.w);
    }
  }

  lemma RecordBefore(pool: Scaling, start: PoolState, journal: seq<Label>, from: nat, earlier: nat, x: Instance,
                     w1: World, w0: World, w: World)
    requires RecoveredRecord(pool, start, journal, from, x, w1, w) && earlier <= from && S.Ages(w0, w1)
    ensures RecoveredRecord(pool, start, journal, earlier, x, w0, w)
  {
    if HandledSince(pool, start, journal, from, x, w1, w) {
      var m: nat, v: PoolState :|
        from <= m <= |journal| && Was(pool, start, journal[..m], v) && HandledIn(pool, v, x, w1, w);
      assert HandledIn(pool, v, x, w0, w);
    }
  }
}
