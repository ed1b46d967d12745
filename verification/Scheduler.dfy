/** Capacity arithmetic: how many provisions a pool may start. */
module Scheduler {
  import opened Lifecycle
  import opened Records

  datatype Demand = Demand(
    waiting: nat,
    minIdle: nat,
    maxInstances: nat,
    maxProvisioning: nat,
    ready: nat,
    provisioning: nat,
    instances: nat)

  function NeededFor(d: Demand): nat {
    var needed := d.waiting + d.minIdle - d.ready - d.provisioning;
    if needed <= 0 then 0
    else
      var remainingInstances := d.maxInstances - d.instances;
      if remainingInstances <= 0 then 0
      else
        var capped := if needed > remainingInstances then remainingInstances else needed;
        var remainingProvisioning := d.maxProvisioning - d.provisioning;
        if remainingProvisioning <= 0 then 0
        else if capped > remainingProvisioning then remainingProvisioning
        else capped
  }

  /** Whether n more starts respect both caps and stay within the demand. */
  ghost predicate Allows(d: Demand, n: nat) {
    n == 0 ||
    (&& d.ready + d.provisioning + n <= d.waiting + d.minIdle
     && d.instances + n <= d.maxInstances
     && d.provisioning + n <= d.maxProvisioning)
  }

  /** NeededFor is the largest number of starts that is allowed. */
  lemma NeededIsLargest(d: Demand, n: nat)
    ensures Allows(d, n) <==> n <= NeededFor(d)
  {}

  function Count(instances: seq<Instance>, state: State): nat {
    if instances == [] then 0
    else Count(instances[..|instances| - 1], state) + if instances[|instances| - 1].state == state then 1 else 0
  }

  function DemandOf(waiting: nat, minIdle: nat, maxInstances: nat, maxProvisioning: nat,
                    instances: seq<Instance>): Demand {
    Demand(waiting, minIdle, maxInstances, maxProvisioning,
           Count(instances, Ready), Count(instances, Bootstrapping), |instances|)
  }

  method Needed(waiting: nat, minIdle: nat, maxInstances: nat, maxProvisioning: nat,
                instances: seq<Instance>) returns (needed: nat)
    ensures needed == NeededFor(DemandOf(waiting, minIdle, maxInstances, maxProvisioning, instances))
  {
    var ready: nat, provisioning: nat := 0, 0;
    for k := 0 to |instances|
      invariant ready == Count(instances[..k], Ready)
      invariant provisioning == Count(instances[..k], Bootstrapping)
    {
      assert instances[..k + 1][..k] == instances[..k];
      match instances[k].state {
        case Ready => ready := ready + 1;
        case Bootstrapping => provisioning := provisioning + 1;
        case _ =>
      }
    }
    assert instances[..|instances|] == instances;
    needed := NeededFor(Demand(waiting, minIdle, maxInstances, maxProvisioning, ready, provisioning, |instances|));
  }

  // ---- lists of a table ----

  function Active(table: map<string, Instance>): set<string> {
    set id | id in table && table[id].state != Finished
  }

  function InState(table: map<string, Instance>, state: State): set<string> {
    set id | id in table && table[id].state == state
  }

  /** `list` is what ListPool returns: every non-finished row once, in some order. */
  ghost predicate Lists(list: seq<Instance>, table: map<string, Instance>) {
    && (forall k :: 0 <= k < |list| ==> list[k].id in Active(table) && table[list[k].id] == list[k])
    && (forall j, k :: 0 <= j < k < |list| ==> list[j].id != list[k].id)
    && (forall id :: id in Active(table) ==> exists k :: 0 <= k < |list| && list[k].id == id)
  }

  /** The IDs a list mentions, and those it mentions in a given state. */
  ghost function Ids(list: seq<Instance>): set<string> {
    if list == [] then {} else Ids(list[..|list| - 1]) + {list[|list| - 1].id}
  }

  ghost function IdsIn(list: seq<Instance>, state: State): set<string> {
    if list == [] then {}
    else
      var last := list[|list| - 1];
      IdsIn(list[..|list| - 1], state) + if last.state == state then {last.id} else {}
  }

  lemma {:induction false} IdsMember(list: seq<Instance>, state: State, id: string)
    ensures id in Ids(list) <==> exists k :: 0 <= k < |list| && list[k].id == id
    ensures id in IdsIn(list, state) <==> exists k :: 0 <= k < |list| && list[k].id == id && list[k].state == state
  {
    if list != [] {
      var init := list[..|list| - 1];
      IdsMember(init, state, id);
      assert forall k :: 0 <= k < |init| ==> init[k] == list[k];
    }
  }

  lemma {:induction false} DistinctCounts(list: seq<Instance>, state: State)
    requires forall j, k :: 0 <= j < k < |list| ==> list[j].id != list[k].id
    ensures |Ids(list)| == |list|
    ensures |IdsIn(list, state)| == Count(list, state)
  {
    if list != [] {
      var init := list[..|list| - 1];
      DistinctCounts(init, state);
      IdsMember(init, state, list[|list| - 1].id);
    }
  }

  /** Counting a list is counting the table it lists. */
  lemma ListCounts(list: seq<Instance>, table: map<string, Instance>, state: State)
    requires Lists(list, table) && state != Finished
    ensures |list| == |Active(table)|
    ensures Count(list, state) == |InState(table, state)|
  {
    DistinctCounts(list, state);
    forall id
      ensures id in Ids(list) <==> id in Active(table)
      ensures id in IdsIn(list, state) <==> id in InState(table, state)
    {
      IdsMember(list, state, id);
    }
    assert Ids(list) == Active(table);
    assert IdsIn(list, state) == InState(table, state);
  }

  // ---- the estimate shown by the API ----

  /** The SQL aggregate over the non-finished rows of a pool. */
  datatype PoolCounts = PoolCounts(bootstrapping: nat, ready: nat, running: nat, cleaning: nat)

  ghost function CountsOf(table: map<string, Instance>): PoolCounts {
    PoolCounts(|InState(table, Bootstrapping)|, |InState(table, Ready)|, |InState(table, Running)|,
               |InState(table, Cleaning)|)
  }

  function EstimatedNeeded(waiting: nat, minIdle: nat, maxInstances: nat, maxProvisioning: nat,
                           counts: PoolCounts): nat {
    NeededFor(Demand(waiting, minIdle, maxInstances, maxProvisioning, counts.ready, counts.bootstrapping,
                     counts.bootstrapping + counts.ready + counts.running + counts.cleaning))
  }

  lemma ActiveIsSum(table: map<string, Instance>)
    ensures var c := CountsOf(table); |Active(table)| == c.bootstrapping + c.ready + c.running + c.cleaning
  {
    var b, r := InState(table, Bootstrapping), InState(table, Ready);
    var u, c := InState(table, Running), InState(table, Cleaning);
    assert Active(table) == b + r + u + c;
    hide Active, InState;
    DisjointSizes(b, r, u, c);
  }

  lemma DisjointSizes(b: set<string>, r: set<string>, u: set<string>, c: set<string>)
    requires b !! r && b + r !! u && b + r + u !! c
    ensures |b + r + u + c| == |b| + |r| + |u| + |c|
  {
    assert |b + r + u + c| == |b + r + u| + |c|;
    assert |b + r + u| == |b + r| + |u|;
  }

  /** The API's estimate from the SQL counts is what the next pass would compute from its
      list of the same table. */
  lemma EstimateAgrees(waiting: nat, minIdle: nat, maxInstances: nat, maxProvisioning: nat,
                       table: map<string, Instance>, list: seq<Instance>)
    requires Lists(list, table)
    ensures EstimatedNeeded(waiting, minIdle, maxInstances, maxProvisioning, CountsOf(table)) ==
            NeededFor(DemandOf(waiting, minIdle, maxInstances, maxProvisioning, list))
  {
    ListCounts(list, table, Ready);
    ListCounts(list, table, Bootstrapping);
    ActiveIsSum(table);
  }
}
