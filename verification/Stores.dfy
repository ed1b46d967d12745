/** What one pool has in the three stores that can disagree: its rows in SQLite, its VMs in
    Incus and its runners in Forgejo, with the elementary effects a call can have on them. */
module Stores {
  import opened Lifecycle
  import opened Records
  import opened Scheduler

  datatype RunnerStatus = RunnerIdle | RunnerActive | RunnerIsOffline | RunnerUnknown

  /** `names` is the UNIQUE index on record names. `vms` maps the name of a VM to the
      instance ID in its tags; `pending` holds creates that Incus has accepted and not
      answered. `issued` remembers for every runner ID ever handed out the name it was
      registered with; `runners` are the registrations that still exist. */
  datatype World = World(
    records: map<string, Instance>,
    names: map<string, string>,
    vms: map<string, string>,
    pending: map<string, string>,
    runners: map<int, RunnerStatus>,
    issued: map<int, string>,
    clock: Time)

  datatype Effect =
    | Nothing
    | Insert(row: Instance)
    | Write(row: Instance)
    | Accept(name: string, id: string)
    | Settle(name: string, landed: bool)
    | DropVm(name: string)
    | AddRunner(runner: int, name: string)
    | DropRunner(runner: int)

  function Effected(w: World, e: Effect): World {
    match e
    case Nothing => w
    case Insert(row) => w.(records := w.records[row.id := row], names := w.names[row.name := row.id])
    case Write(row) => w.(records := w.records[row.id := row])
    case Accept(name, id) => w.(pending := w.pending[name := id])
    case Settle(name, landed) =>
      if name !in w.pending then w
      else w.(pending := w.pending - {name}, vms := if landed then w.vms[name := w.pending[name]] else w.vms)
    case DropVm(name) => w.(vms := w.vms - {name})
    case AddRunner(runner, name) =>
      w.(runners := w.runners[runner := RunnerIsOffline], issued := w.issued[runner := name])
    case DropRunner(runner) => w.(runners := w.runners - {runner})
  }

  lemma EffectTakesNoTime(w: World, e: Effect)
    ensures Effected(w, e).clock == w.clock
  {}

  /** How the three stores fit together at every moment, whatever has failed so far. VMs with
      the controller's tags but no record, left by an older database, are allowed. */
  ghost predicate Sane(w: World) {
    && (forall id :: id in w.records ==>
          && w.records[id].id == id
          && w.records[id].name in w.names && w.names[w.records[id].name] == id
          && (w.records[id].runner != 0 ==>
                w.records[id].runner in w.issued && w.issued[w.records[id].runner] == w.records[id].name))
    && (forall n :: n in w.names ==> w.names[n] in w.records && w.records[w.names[n]].name == n)
    && (forall n :: n in w.vms ==>
          && (n in w.names ==> w.vms[n] == w.names[n])
          && (w.vms[n] in w.records ==> n in w.names))
    && (forall n :: n in w.pending ==> n !in w.vms && n in w.names && w.names[n] == w.pending[n])
    && (forall r :: r in w.runners ==> r in w.issued)
    && 0 !in w.issued
  }

  /** When an effect is one the controller or its servers can have. */
  ghost predicate Possible(w: World, e: Effect) {
    match e
    case Nothing => true
    case Insert(row) =>
      && row.id !in w.records && row.name !in w.names && row.runner == 0 && row.state != Finished
      && row.name !in w.vms && row.id !in w.vms.Values
    case Write(row) =>
      && row.id in w.records
      && var before := w.records[row.id];
         && row.name == before.name && row.pool == before.pool && CanTransition(before.state, row.state)
         && (row.runner == before.runner || (row.runner in w.issued && w.issued[row.runner] == row.name))
    case Accept(name, id) => name in w.names && w.names[name] == id && name !in w.vms && name !in w.pending
    case Settle(name, _) => name in w.pending
    case DropVm(_) => true
    case AddRunner(runner, name) => runner != 0 && runner !in w.issued && name in w.names
    case DropRunner(_) => true
  }

  lemma InsertSane(w: World, row: Instance)
    requires Sane(w) && Possible(w, Insert(row))
    ensures Sane(Effected(w, Insert(row)))
  {
    forall n | n in w.vms ensures w.vms[n] != row.id {
      assert w.vms[n] in w.vms.Values;
    }
  }

  lemma WriteSane(w: World, row: Instance)
    requires Sane(w) && Possible(w, Write(row))
    ensures Sane(Effected(w, Write(row)))
  {}

  lemma SettleSane(w: World, name: string, landed: bool)
    requires Sane(w) && Possible(w, Settle(name, landed))
    ensures Sane(Effected(w, Settle(name, landed)))
  {}

  lemma AddRunnerSane(w: World, runner: int, name: string)
    requires Sane(w) && Possible(w, AddRunner(runner, name))
    ensures Sane(Effected(w, AddRunner(runner, name)))
  {}

  lemma EffectedSane(w: World, e: Effect)
    requires Sane(w) && Possible(w, e)
    ensures Sane(Effected(w, e))
  {
    match e
    case Insert(row) => InsertSane(w, row);
    case Write(row) => WriteSane(w, row);
    case Settle(name, landed) => SettleSane(w, name, landed);
    case AddRunner(runner, name) => AddRunnerSane(w, runner, name);
    case _ =>
  }

  /** Nothing is orphaned: every VM carries the ID of a live record, and every runner is the
      recorded runner of one. */
  ghost predicate Swept(w: World) {
    && (forall n :: n in w.vms ==> n in w.names && Live(w, w.names[n]))
    && (forall r :: r in w.runners ==> r in w.issued && Holder(w, r))
  }

  ghost predicate Live(w: World, id: string) {
    id in w.records && w.records[id].state != Finished
  }

  ghost predicate Holder(w: World, r: int)
    requires r in w.issued
  {
    && w.issued[r] in w.names
    && var id := w.names[w.issued[r]];
       Live(w, id) && w.records[id].runner == r
  }

  /** What Swept says in the terms of the stores themselves. */
  lemma SweptMeans(w: World)
    requires Sane(w) && Swept(w)
    ensures forall n :: n in w.vms ==>
              w.vms[n] in w.records && w.records[w.vms[n]].name == n && w.records[w.vms[n]].state != Finished
    ensures forall r :: r in w.runners ==>
              exists id :: id in w.records && w.records[id].runner == r && w.records[id].state != Finished
    ensures forall id :: id in w.records && w.records[id].state == Finished ==>
              w.records[id].name !in w.vms && w.records[id].runner !in w.runners
  {
    forall r | r in w.runners
      ensures exists id :: id in w.records && w.records[id].runner == r && w.records[id].state != Finished
    {
      assert Holder(w, r);
    }
  }

  function Booting(w: World): set<string> {
    InState(w.records, Bootstrapping)
  }

  ghost function LiveNames(w: World): set<string> {
    set id | id in Active(w.records) :: w.records[id].name
  }

  lemma {:induction false} NamesOf(records: map<string, Instance>, ids: set<string>)
    requires ids <= records.Keys
    ensures |set id | id in ids :: records[id].name| <= |ids|
    decreases |ids|
  {
    var names := set id | id in ids :: records[id].name;
    if ids == {} {
      assert names == {};
    } else {
      var x :| x in ids;
      NamesOf(records, ids - {x});
      var rest := set id | id in ids - {x} :: records[id].name;
      assert names == rest + {records[x].name};
    }
  }

  lemma InsertCounts(w: World, row: Instance)
    requires Sane(w) && Possible(w, Insert(row))
    ensures |Active(Effected(w, Insert(row)).records)| == |Active(w.records)| + 1
    ensures |Booting(Effected(w, Insert(row)))| <= |Booting(w)| + 1
  {
    var records' := w.records[row.id := row];
    assert Active(records') == Active(w.records) + {row.id};
    assert row.id !in Active(w.records);
    assert InState(records', Bootstrapping) <= Booting(w) + {row.id};
    Smaller(InState(records', Bootstrapping), Booting(w) + {row.id});
  }

  /** No write makes more records live or booting. */
  lemma WriteCounts(w: World, row: Instance)
    requires Sane(w) && Possible(w, Write(row))
    ensures |Active(Effected(w, Write(row)).records)| <= |Active(w.records)|
    ensures |Booting(Effected(w, Write(row)))| <= |Booting(w)|
  {
    var w' := Effected(w, Write(row));
    assert Active(w'.records) <= Active(w.records);
    assert Booting(w') <= Booting(w);
    Smaller(Active(w'.records), Active(w.records));
    Smaller(Booting(w'), Booting(w));
  }

  lemma Smaller<T>(a: set<T>, b: set<T>)
    requires a <= b
    ensures |a| <= |b|
  {
    assert b == a + (b - a);
  }
}
