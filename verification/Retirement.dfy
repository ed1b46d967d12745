/** Scaling down: which ready VMs are retired, and how many stay. */
module Retirement {
  import opened Arithmetic
  import opened Lifecycle
  import opened Records
  import opened Scheduler
  import opened Stores
  import opened Protocol
  import opened Cleanups
  import S = Servers

  function Filtered(list: seq<Instance>, state: State): seq<Instance> {
    if list == [] then []
    else
      var last := list[|list| - 1];
      Filtered(list[..|list| - 1], state) + if last.state == state then [last] else []
  }

  lemma {:induction false} FilteredMeans(list: seq<Instance>, state: State)
    requires forall j, k :: 0 <= j < k < |list| ==> list[j].id != list[k].id
    ensures |Filtered(list, state)| == Count(list, state)
    ensures forall k :: 0 <= k < |Filtered(list, state)| ==>
              Filtered(list, state)[k].state == state && Filtered(list, state)[k] in list
    ensures var f := Filtered(list, state); forall j, k :: 0 <= j < k < |f| ==> f[j].id != f[k].id
  {
    if list != [] {
      FilteredMeans(list[..|list| - 1], state);
    }
  }

  lemma ReadyListed(list: seq<Instance>, records: map<string, Instance>, ready: seq<Instance>)
    requires Lists(list, records) && ready == Filtered(list, Ready)
    ensures |ready| == |InState(records, Ready)|
    ensures forall k :: 0 <= k < |ready| ==>
              ready[k].state == Ready && ready[k].id in records && records[ready[k].id] == ready[k]
    ensures forall j, k :: 0 <= j < k < |ready| ==> ready[j].id != ready[k].id
  {
    FilteredMeans(list, Ready);
    ListCounts(list, records, Ready);
  }

  ghost function ReadyCount(s: PoolState): nat {
    |InState(s.w.records, Ready)|
  }

  lemma RetiredOne(s: PoolState, s': PoolState, x: Instance)
    requires Spares(s, s', x)
    ensures Passes(s, s')
    ensures ReadyCount(s') >= ReadyCount(s) - 1
  {
    assert InState(s.w.records, Ready) <= InState(s'.w.records, Ready) + {x.id};
    Smaller(InState(s.w.records, Ready), InState(s'.w.records, Ready) + {x.id});
  }

  /** A record is as it was, or it was ready for long enough and is on its way out. */
  ghost predicate RetiredOnly(before: Instance, after: Instance, now: Time, idleTimeout: Time) {
    after == before ||
    (&& before.state == Ready && now - before.stateChangedAt >= idleTimeout
     && Leaving(Begun(before, Succeeded, IdleTimeout, ""), after))
  }

  /** Where the loop over the ready VMs stands: `excess` more may still be retired. */
  ghost predicate Retiring(s0: PoolState, s: PoolState, ready: seq<Instance>, k: nat, excess: int, desired: int,
                           idleTimeout: Time) {
    && Passes(s0, s)
    && (forall j :: k <= j < |ready| ==> ready[j].id in s.w.records && s.w.records[ready[j].id] == ready[j])
    && ReadyCount(s) >= excess + desired
    && excess + desired >= Min(ReadyCount(s0), desired)
    && (forall id :: id in s0.w.records ==> RetiredOnly(s0.w.records[id], s.w.records[id], s.w.clock, idleTimeout))
  }

  /** So far everything has gone well: each VM passed over had not been idle for long enough,
      and every other one is gone. */
  ghost predicate AllRetired(s0: PoolState, s: PoolState, ready: seq<Instance>, k: nat, excess: int, desired: int,
                             idleTimeout: Time) {
    && k <= |ready|
    && ReadyCount(s) == excess + desired
    && (forall j :: 0 <= j < k && ready[j].id in s.w.records && s.w.records[ready[j].id].state == Ready ==>
          s0.w.clock - ready[j].stateChangedAt < idleTimeout)
  }

  lemma RetiredWell(s0: PoolState, s: PoolState, s': PoolState, ready: seq<Instance>, k: nat, excess: int,
                    desired: int, idleTimeout: Time)
    requires AllRetired(s0, s, ready, k, excess, desired, idleTimeout) && k < |ready| && ready[k].state == Ready
    requires ready[k].id in s.w.records && s.w.records[ready[k].id] == ready[k]
    requires Spares(s, s', ready[k]) && s'.w.records[ready[k].id].state == Finished
    ensures AllRetired(s0, s', ready, k + 1, excess - 1, desired, idleTimeout)
  {
    assert InState(s'.w.records, Ready) == InState(s.w.records, Ready) - {ready[k].id};
    assert ready[k].id in InState(s.w.records, Ready);
  }

  /** A VM that has not been idle for long enough is passed over. */
  lemma NotRetired(s0: PoolState, s: PoolState, ready: seq<Instance>, k: nat, excess: int, desired: int,
                   idleTimeout: Time)
    requires Retiring(s0, s, ready, k, excess, desired, idleTimeout) && k < |ready|
    requires AllRetired(s0, s, ready, k, excess, desired, idleTimeout)
    requires s.w.clock - ready[k].stateChangedAt < idleTimeout
    ensures Retiring(s0, s, ready, k + 1, excess, desired, idleTimeout)
    ensures AllRetired(s0, s, ready, k + 1, excess, desired, idleTimeout)
  {}

  /** What scaling down leaves to do: nothing in excess, or nothing idle for long enough. */
  ghost predicate ScaledDown(s0: PoolState, s: PoolState, desired: int, idleTimeout: Time) {
    || ReadyCount(s) <= desired
    || forall id :: id in s.w.records && s.w.records[id].state == Ready ==>
         s0.w.clock - s.w.records[id].stateChangedAt < idleTimeout
  }

  lemma RetiredAll(s0: PoolState, s: PoolState, list: seq<Instance>, ready: seq<Instance>, k: nat, excess: int,
                   desired: int, idleTimeout: Time)
    requires Lists(list, s0.w.records) && ready == Filtered(list, Ready)
    requires Retiring(s0, s, ready, k, excess, desired, idleTimeout)
    requires AllRetired(s0, s, ready, k, excess, desired, idleTimeout)
    requires excess <= 0 || k == |ready|
    ensures ScaledDown(s0, s, desired, idleTimeout)
  {
    if excess > 0 {
      forall id | id in s.w.records && s.w.records[id].state == Ready
        ensures s0.w.clock - s.w.records[id].stateChangedAt < idleTimeout
      {
        assert RetiredOnly(s0.w.records[id], s.w.records[id], s.w.clock, idleTimeout);
        assert id in Active(s0.w.records);
        var j :| 0 <= j < |list| && list[j].id == id;
        FilteredAll(list, Ready, j);
      }
    }
  }

  lemma {:induction false} FilteredAll(list: seq<Instance>, state: State, j: nat)
    requires j < |list| && list[j].state == state
    ensures list[j] in Filtered(list, state)
  {
    if j < |list| - 1 {
      FilteredAll(list[..|list| - 1], state, j);
    }
  }

  lemma RetireStep(s0: PoolState, s: PoolState, s': PoolState, ready: seq<Instance>, k: nat, excess: int,
                   desired: int, idleTimeout: Time)
    requires Retiring(s0, s, ready, k, excess, desired, idleTimeout) && k < |ready| && excess > 0
    requires ready[k].state == Ready && s.w.clock - ready[k].stateChangedAt >= idleTimeout
    requires forall j :: k < j < |ready| ==> ready[j].id != ready[k].id
    requires Spares(s, s', ready[k])
    requires s'.w.records[ready[k].id] == ready[k] ||
             Leaving(Begun(ready[k], Succeeded, IdleTimeout, ""), s'.w.records[ready[k].id])
    ensures Retiring(s0, s', ready, k + 1, excess - 1, desired, idleTimeout)
  {
    RetiredOne(s, s', ready[k]);
    forall id | id in s0.w.records
      ensures RetiredOnly(s0.w.records[id], s'.w.records[id], s'.w.clock, idleTimeout)
    {
      RetiredAsWell(s0, s, s', ready[k], id, idleTimeout);
    }
    hide RetiredOnly, InState, Leaving;
  }

  lemma RetiredAsWell(s0: PoolState, s: PoolState, s': PoolState, x: Instance, id: string, idleTimeout: Time)
    requires Passes(s0, s) && Spares(s, s', x) && id in s0.w.records
    requires x.id in s.w.records && s.w.records[x.id] == x
    requires RetiredOnly(s0.w.records[id], s.w.records[id], s.w.clock, idleTimeout)
    requires x.state == Ready && s.w.clock - x.stateChangedAt >= idleTimeout
    requires s'.w.records[x.id] == x || Leaving(Begun(x, Succeeded, IdleTimeout, ""), s'.w.records[x.id])
    ensures RetiredOnly(s0.w.records[id], s'.w.records[id], s'.w.clock, idleTimeout)
  {}

  /** If no fewer are ready than before, then nothing has been retired at all. */
  lemma NothingRetired(s0: PoolState, s: PoolState, idleTimeout: Time)
    requires Passes(s0, s) && ReadyCount(s) >= ReadyCount(s0)
    requires forall id :: id in s0.w.records ==> RetiredOnly(s0.w.records[id], s.w.records[id], s.w.clock, idleTimeout)
    ensures s.w.records == s0.w.records
  {
    var before, after := InState(s0.w.records, Ready), InState(s.w.records, Ready);
    forall id | id in after
      ensures id in before
    {
      assert RetiredOnly(s0.w.records[id], s.w.records[id], s.w.clock, idleTimeout);
    }
    SameIfNoSmaller(after, before);
    forall id | id in s0.w.records
      ensures s.w.records[id] == s0.w.records[id]
    {
      assert RetiredOnly(s0.w.records[id], s.w.records[id], s.w.clock, idleTimeout);
      assert id in before ==> id in after;
    }
  }

  lemma SameIfNoSmaller(a: set<string>, b: set<string>)
    requires a <= b && |a| >= |b|
    ensures a == b
  {
    assert |b| == |a| + |b - a| by {
      assert b == a + (b - a);
    }
  }

  // ---- what is needed then ----

  /** The demand of the pool in terms of its records. */
  ghost function DemandAt(pool: Scaling, s: PoolState, waiting: nat): Demand {
    Demand(waiting, pool.minIdle, pool.maxInstances, pool.maxProvisioning,
           ReadyCount(s), |Booting(s.w)|, |Active(s.w.records)|)
  }

  lemma DemandListed(pool: Scaling, s: PoolState, waiting: nat, list: seq<Instance>)
    requires Lists(list, s.w.records)
    ensures DemandOf(waiting, pool.minIdle, pool.maxInstances, pool.maxProvisioning, list) == DemandAt(pool, s, waiting)
  {
    ListCounts(list, s.w.records, Ready);
    ListCounts(list, s.w.records, Bootstrapping);
  }

  /** A pool is not scaled down and up in one pass: if any VM is needed, none was retired. */
  lemma NeverBoth(pool: Scaling, s0: PoolState, s: PoolState, waiting: nat)
    requires Passes(s0, s) && ReadyCount(s) >= Min(ReadyCount(s0), pool.minIdle + waiting)
    requires forall id :: id in s0.w.records ==>
               RetiredOnly(s0.w.records[id], s.w.records[id], s.w.clock, pool.idleTimeout)
    ensures NeededFor(DemandAt(pool, s, waiting)) > 0 ==> s.w.records == s0.w.records
  {
    if NeededFor(DemandAt(pool, s, waiting)) > 0 {
      NothingRetired(s0, s, pool.idleTimeout);
    }
  }

  // ---- scaling down as a whole ----

  /** What scaling down has done, with or without an error. */
  ghost predicate Scaled(s0: PoolState, s: PoolState, ok: bool, desired: int, idleTimeout: Time) {
    && Passes(s0, s)
    && ReadyCount(s) >= Min(ReadyCount(s0), desired)
    && (forall id :: id in s0.w.records ==> RetiredOnly(s0.w.records[id], s.w.records[id], s.w.clock, idleTimeout))
    && (ok ==> ScaledDown(s0, s, desired, idleTimeout))
  }

  lemma ScaledSoFar(s0: PoolState, s: PoolState, ready: seq<Instance>, k: nat, excess: int, desired: int,
                    idleTimeout: Time)
    requires Retiring(s0, s, ready, k, excess, desired, idleTimeout)
    ensures Scaled(s0, s, false, desired, idleTimeout)
  {}

  lemma ScaledAll(s0: PoolState, s: PoolState, list: seq<Instance>, ready: seq<Instance>, k: nat, excess: int,
                  desired: int, idleTimeout: Time)
    requires Lists(list, s0.w.records) && ready == Filtered(list, Ready)
    requires Retiring(s0, s, ready, k, excess, desired, idleTimeout)
    requires AllRetired(s0, s, ready, k, excess, desired, idleTimeout)
    requires excess <= 0 || k == |ready|
    ensures Scaled(s0, s, true, desired, idleTimeout)
  {
    RetiredAll(s0, s, list, ready, k, excess, desired, idleTimeout);
  }

  lemma RetiringBegins(s0: PoolState, list: seq<Instance>, ready: seq<Instance>, desired: int, idleTimeout: Time)
    requires Lists(list, s0.w.records) && ready == Filtered(list, Ready)
    ensures Retiring(s0, s0, ready, 0, |ready| - desired, desired, idleTimeout)
    ensures AllRetired(s0, s0, ready, 0, |ready| - desired, desired, idleTimeout)
    ensures forall k :: 0 <= k < |ready| ==> ready[k].state == Ready
    ensures forall j, k :: 0 <= j < k < |ready| ==> ready[j].id != ready[k].id
  {
    ReadyListed(list, s0.w.records, ready);
  }

  lemma ScaledPasses(s: PoolState, s0: PoolState, s1: PoolState, ok: bool, desired: int, idleTimeout: Time)
    requires S.Drifts(s, s0) && Scaled(s0, s1, ok, desired, idleTimeout)
    ensures Passes(s, s1)
  {}

  /** Before and after scaling down nothing but time and outside changes have passed. */
  lemma RescaledNeeds(pool: Scaling, s: PoolState, s0: PoolState, s1: PoolState, s': PoolState, waiting: nat)
    requires S.Drifts(s, s0) && Scaled(s0, s1, true, pool.minIdle + waiting, pool.idleTimeout) && S.Drifts(s1, s')
    ensures Passes(s, s') && ScaledDown(s, s', pool.minIdle + waiting, pool.idleTimeout)
    ensures NeededFor(DemandAt(pool, s', waiting)) > 0 ==> s'.w.records == s.w.records
  {
    NeverBoth(pool, s0, s1, waiting);
  }
}
