/** The stores and servers as one pool's pass meets them: every call is one step of the
    protocol, can fail before or after it took effect, and is followed by whatever happens
    outside the controller before the next call. */
module Servers {
  import opened Lifecycle
  import opened Records
  import opened InstanceStore
  import opened Scheduler
  import opened Stores
  import opened Protocol
  import opened Runs
  import Config
  import B = Breaker
  import I = Incidents

  datatype ManagedVm = ManagedVm(id: string, name: string)

  datatype ListedRunner = ListedRunner(runner: int, description: string)

  /** A lookup of one runner: gone (404), not answered, or its status. */
  datatype Lookup = Gone | NoAnswer | Shows(status: RunnerStatus)

  /** Only what the controller does not decide has changed: the clock, and what has gone away
      or changed its status by itself. */
  ghost predicate Drifts(s: PoolState, s': PoolState) {
    && s' == s.(w := s.w.(runners := s'.w.runners, vms := s'.w.vms, clock := s'.w.clock))
    && Ages(s.w, s'.w)
  }

  ghost predicate Ages(w: World, w': World) {
    && w.clock <= w'.clock
    && (forall r :: r in w'.runners ==> r in w.runners)
    && (forall n :: n in w'.vms ==> n in w.vms && w'.vms[n] == w.vms[n])
  }

  /** The controller has made no step. */
  ghost predicate Quiet(from: seq<Label>, to: seq<Label>) {
    from <= to && forall i :: |from| <= i < |to| ==> to[i].Outside?
  }

  /** The controller has made no step but, perhaps, the given one. */
  ghost predicate Only(from: seq<Label>, to: seq<Label>, l: Label) {
    from <= to && forall i :: |from| <= i < |to| ==> to[i].Outside? || to[i] == l
  }

  function Written(s: PoolState, id: string, call: Call): PoolState
    requires id in s.w.records && Change(s.w.records[id], call).Some?
  {
    s.(w := Effected(s.w, Write(Stamp(s.w.records[id], Change(s.w.records[id], call).value, s.w.clock))))
  }

  /** After a call that failed the effect may have happened or not. */
  ghost predicate Outcome(before: PoolState, changed: PoolState, ok: bool, after: PoolState) {
    Drifts(changed, after) || (!ok && Drifts(before, after))
  }

  class Servers {
    const controller: string
    const poolName: string
    const pool: Scaling
    const start: PoolState

    /** The stores, and how far the controller has come. */
    var st: PoolState
    /** Every step since the start. */
    var journal: seq<Label>
    /** Calls that failed, and answers that make no sense, so far. */
    ghost var faults: nat
    /** Goroutines started so far. */
    ghost var spawned: nat
    /** Deletions that failed so far. */
    ghost var undeleted: nat

    ghost predicate Valid()
      reads this
    {
      Reached(pool, start, journal, st)
    }

    constructor (controller: string, poolName: string, pool: Scaling, w: World, row: Option<RunRow>)
      requires Startable(pool, w)
      ensures Valid() && st == start == Start(pool, w, row) && journal == [] && faults == 0
      ensures this.controller == controller && this.poolName == poolName && this.pool == pool
    {
      this.controller, this.poolName, this.pool := controller, poolName, pool;
      start, st, journal, faults, spawned, undeleted := Start(pool, w, row), Start(pool, w, row), [], 0, 0, 0;
      StartInv(pool, w, row);
      ReachedMeans(pool, Start(pool, w, row), [], Start(pool, w, row));
    }

    method Fire(l: Label)
      requires Valid() && Enabled(pool, st, l) && Justified(pool, start, journal, st, l)
      modifies this`st, this`journal, this`spawned
      ensures Valid() && journal == old(journal) + [l]
      ensures spawned == old(spawned) + if l.Spawn? then 1 else 0
      ensures st == Do(pool, old(st), l)
    {
      ReachedExtend(pool, start, journal, st, l);
      journal := journal + [l];
      st := Do(pool, st, l);
      if l.Spawn? {
        spawned := spawned + 1;
      }
    }

    /** Time passes, jobs start and end, runners and VMs go away. */
    method Interfere()
      requires Valid()
      modifies this`st, this`journal, this`spawned
      ensures Valid() && Quiet(old(journal), journal) && Drifts(old(st), st) && spawned == old(spawned)
    {
      var runners: map<int, RunnerStatus>, vms: map<string, string>, clock: Time := *, *, *;
      if Passing(st.w, runners, vms, clock) {
        Fire(Outside(runners, vms, clock));
      }
    }

    /** The process has died after the first `k` of its steps and starts again; what came
        after them never happened. */
    method Die(k: nat)
      requires Valid() && k <= |journal| && st.refused == start.refused
      modifies this`st, this`journal, this`spawned
      ensures Valid() && st.phase == Idle && st.refused == start.refused
      ensures st.book.confirmed == None && st.book.owed == None
      ensures journal == old(journal)[..k] + [Crash]
    {
      ReachedMeans(pool, start, journal, st);
      NeverRefusedBefore(pool, start, journal, k);
      PrefixLegal(pool, start, journal, k);
      DeliberatePrefix(pool, start, journal, k);
      journal := journal[..k];
      st := Exec(pool, start, journal);
      ReachedMeans(pool, start, journal, st);
      Fire(Crash);
    }

    /** Creates that were under way when the process died are answered, one way or the other. */
    method SettlePending()
      requires Valid() && st.phase == Idle
      modifies this`st, this`journal, this`spawned
      ensures Valid() && st.phase == Idle && st.refused == old(st.refused) && st.w.pending == map[]
      ensures st.book == old(st.book)
    {
      while st.w.pending.Keys != {}
        invariant Valid() && st.phase == Idle && st.refused == old(st.refused) && st.book == old(st.book)
        decreases st.w.pending.Keys
      {
        var name: string :| name in st.w.pending.Keys;
        var landed: bool := *;
        Fire(SettleLate(name, landed));
      }
    }

    method Decide() returns (fate: Fate)
      modifies this`faults
      ensures faults == old(faults) + if fate == Commits then 0 else 1
    {
      fate := *;
      if fate != Commits {
        faults := faults + 1;
      }
    }

    /** A call that touches nothing of what is modelled here. */
    method Ask() returns (ok: bool)
      requires Valid()
      modifies this
      ensures Valid() && Quiet(old(journal), journal) && Drifts(old(st), st)
      ensures faults >= old(faults) && spawned == old(spawned) && (ok <==> faults == old(faults))
    {
      var fate := Decide();
      Interfere();
      ok := fate == Commits;
    }

    // ---- the database ----

    /** A guarded change of one record. What the guard refuses is counted. */
    method Update(id: string, call: Call) returns (ok: bool)
      requires Valid() && InPass(st) && Live(st.w, id) && !call.SetRegistration?
      requires call.MarkReady? || call.MarkRunning? ==> st.w.records[id].runner != 0
      requires call.FinishCleanup? ==> st.w.records[id].name !in st.w.vms && st.w.records[id].runner !in st.w.runners
      modifies this
      ensures Valid() && old(journal) <= journal
      ensures faults >= old(faults) && spawned == old(spawned) && undeleted == old(undeleted)
      ensures ok ==> Quiet(old(journal) + [StoreCall(id, call)], journal)
      ensures var accepted := Change(old(st.w.records[id]), call).Some?;
              && (accepted ==>
                    && Only(old(journal), journal, StoreCall(id, call))
                    && Outcome(old(st), Written(old(st), id, call), ok, st) && (ok <==> faults == old(faults)))
              && (!accepted ==> !ok && Drifts(old(st.(refused := st.refused + 1)), st))
    {
      hide Enabled, Do, Change, Effected, Stamp;
      MayUpdate(pool, start, journal, st, id, call);
      if Change(st.w.records[id], call).None? {
        Fire(RefusedCall);
        Interfere();
        return false;
      }
      var fate := Decide();
      if fate != FailsBefore {
        Fire(StoreCall(id, call));
      }
      Interfere();
      ok := fate == Commits;
    }

    /** `ListPool`: the records of the pool that are not finished, in some order. */
    method ListPool() returns (ok: bool, list: seq<Instance>)
      requires Valid()
      modifies this
      ensures Valid() && Quiet(old(journal), journal) && Drifts(old(st), st)
      ensures faults >= old(faults) && spawned == old(spawned) && (ok <==> faults == old(faults))
      ensures ok ==> Lists(list, st.w.records)
    {
      var fate := Decide();
      list := [];
      if fate == Commits {
        ReachedKeyed(pool, start, journal, st);
        list := Rows(st.w.records);
      }
      Interfere();
      ok := fate == Commits;
    }

    static method Rows(records: map<string, Instance>) returns (list: seq<Instance>)
      requires Keyed(records)
      ensures Lists(list, records)
    {
      list := [];
      var rest: set<string> := records.Keys;
      while rest != {}
        invariant rest <= records.Keys
        invariant forall k :: 0 <= k < |list| ==>
                    && list[k].id in Active(records) && records[list[k].id] == list[k] && list[k].id !in rest
        invariant forall j, k :: 0 <= j < k < |list| ==> list[j].id != list[k].id
        invariant forall id :: id in Active(records) && id !in rest ==> exists k :: 0 <= k < |list| && list[k].id == id
      {
        var id: string :| id in rest;
        rest := rest - {id};
        if records[id].state != Finished {
          ghost var before := list;
          list := list + [records[id]];
          assert list[|before|].id == id;
          assert forall k :: 0 <= k < |before| ==> list[k] == before[k];
        }
      }
    }

    // ---- the circuit breaker's row ----

    method ReserveBootstrap(wanted: nat) returns (ok: bool, reservation: B.Reservation)
      requires Valid() && st.phase == Maintaining && st.bootstrap.granted == 0 && wanted >= 1
      modifies this
      ensures Valid() && old(journal) <= journal && faults >= old(faults) && spawned == old(spawned)
      ensures var now := old(st.w.clock);
              reservation == B.Reserve(old(st.bootstrap.row), wanted, pool.attemptLimit, now, now + pool.retryInterval)
      ensures ok ==> st.bootstrap.granted == reservation.count && st.bootstrap.row == reservation.state
      ensures Drifts(old(st).(bootstrap := st.bootstrap), st)
      ensures (!ok ==> st.bootstrap.granted == 0) && (ok <==> faults == old(faults))
    {
      var fate := Decide();
      reservation := B.Reserve(st.bootstrap.row, wanted, pool.attemptLimit, st.w.clock,
                               st.w.clock + pool.retryInterval);
      Fire(Reserve(wanted, fate));
      Interfere();
      ok := fate == Commits;
    }

    method HoldBootstrap() returns (ok: bool)
      requires Valid() && Enabled(pool, st, Hold(Commits))
      modifies this
      ensures Valid() && old(journal) <= journal && faults >= old(faults) && spawned == old(spawned)
      ensures Drifts(old(st).(bootstrap := st.bootstrap), st) && st.bootstrap.granted == 0
      ensures ok <==> faults == old(faults)
      ensures ok ==> st.bootstrap.row == old(st.bootstrap.row).(retryAt := old(st.w.clock) + pool.retryInterval)
    {
      var fate := Decide();
      Fire(Hold(fate));
      Interfere();
      ok := fate == Commits;
    }

    method ResetBootstrap() returns (ok: bool)
      requires Valid() && Enabled(pool, st, Reset(Commits))
      modifies this
      ensures Valid() && old(journal) <= journal && faults >= old(faults) && spawned == old(spawned)
      ensures Drifts(old(st).(bootstrap := st.bootstrap), st) && st.bootstrap.granted == 0
      ensures ok <==> faults == old(faults)
      ensures ok ==> st.bootstrap.row == B.Row(0, 0)
    {
      var fate := Decide();
      Fire(Reset(fate));
      Interfere();
      ok := fate == Commits;
    }

    // ---- the runtime row ----

    method StartPool(runId: string) returns (ok: bool)
      requires Valid() && Enabled(pool, st, StartRun(runId, Commits))
      modifies this
      ensures Valid() && old(journal) <= journal && faults >= old(faults) && spawned == old(spawned)
      ensures Drifts(old(st).(book := st.book), st) && st.book.owed == None && st.book.settled == old(st.book.settled)
      ensures st.book.filings == old(st.book.filings)
      ensures st.book.confirmed == (if ok then Some(runId) else None) && (ok <==> faults == old(faults))
    {
      var fate := Decide();
      Fire(StartRun(runId, fate));
      Interfere();
      ok := fate == Commits;
    }

    method ProgressPool(runId: string) returns (ok: bool)
      requires Valid() && Enabled(pool, st, ProgressRun(runId, Commits))
      modifies this
      ensures Valid() && old(journal) <= journal && faults >= old(faults) && spawned == old(spawned)
      ensures Drifts(old(st).(book := st.book), st) && st.book.confirmed == None
      ensures st.book.filings == old(st.book.filings) && st.book.settled == old(st.book.settled)
      ensures st.book.owed == (if ok then Some(runId) else None) && (ok <==> faults == old(faults))
    {
      var fate := Decide();
      Fire(ProgressRun(runId, fate));
      Interfere();
      ok := fate == Commits;
    }

    method FinishPool(runId: string, state: I.RunState) returns (ok: bool)
      requires Valid() && Enabled(pool, st, FinishRun(runId, state, Commits))
      modifies this
      ensures Valid() && old(journal) <= journal && faults >= old(faults) && spawned == old(spawned)
      ensures Drifts(old(st).(book := st.book), st) && st.book.confirmed == None && st.book.owed == None
      ensures exists fate :: Quiet(old(journal) + [FinishRun(runId, state, fate)], journal)
      ensures st.book.filings == old(st.book.filings) + [RunRow(runId, state)]
      ensures st.book.settled == old(st.book.settled)
      ensures faults <= old(faults) + 1 && (ok <==> faults == old(faults))
      ensures ok ==> st.book.row == Some(RunRow(runId, state))
    {
      ReachedBook(pool, start, journal, st);
      var fate := Decide();
      Fire(FinishRun(runId, state, fate));
      Interfere();
      ok := fate == Commits;
    }

    method InterruptPools() returns (ok: bool)
      requires Valid() && Enabled(pool, st, InterruptRun(Commits))
      modifies this
      ensures Valid() && old(journal) <= journal && faults >= old(faults) && spawned == old(spawned)
      ensures Drifts(old(st).(book := st.book), st) && st.book.confirmed == None && st.book.owed == None
      ensures ok ==> st.book.settled
      ensures ok && st.book.row.Some? ==> st.book.row.value.state != I.RunRunning
    {
      var fate := Decide();
      Fire(InterruptRun(fate));
      Interfere();
      ok := fate == Commits;
    }

    // ---- Incus ----

    /** `Managed`: the VMs with the tags of this controller and pool. */
    method Managed() returns (ok: bool, list: seq<ManagedVm>)
      requires Valid()
      modifies this
      ensures Valid() && Quiet(old(journal), journal) && Drifts(old(st), st)
      ensures faults >= old(faults) && spawned == old(spawned) && (ok <==> faults == old(faults))
      ensures ok ==> ListsVms(list, old(st.w.vms))
    {
      var fate := Decide();
      list := [];
      if fate == Commits {
        list := Vms(st.w.vms);
      }
      Interfere();
      ok := fate == Commits;
    }

    static method Vms(vms: map<string, string>) returns (list: seq<ManagedVm>)
      ensures ListsVms(list, vms)
    {
      list := [];
      var rest: set<string> := vms.Keys;
      while rest != {}
        invariant rest <= vms.Keys
        invariant forall k :: 0 <= k < |list| ==>
                    list[k].name in vms && vms[list[k].name] == list[k].id && list[k].name !in rest
        invariant forall j, k :: 0 <= j < k < |list| ==> list[j].name != list[k].name
        invariant forall n :: n in vms && n !in rest ==> exists k :: 0 <= k < |list| && list[k].name == n
      {
        var n: string :| n in rest;
        rest := rest - {n};
        ghost var before := list;
        list := list + [ManagedVm(vms[n], n)];
        assert list[|before|].name == n;
        assert forall k :: 0 <= k < |before| ==> list[k] == before[k];
      }
    }

    /** Deletes a VM; one that is absent counts as deleted. */
    method DeleteInstance(name: string) returns (ok: bool)
      requires Valid() && Enabled(pool, st, DeleteVm(name)) && Justified(pool, start, journal, st, DeleteVm(name))
      modifies this
      ensures Valid() && Only(old(journal), journal, DeleteVm(name))
      ensures faults >= old(faults) && spawned == old(spawned) && (ok <==> faults == old(faults))
      ensures undeleted == old(undeleted) + if ok then 0 else 1
      ensures Outcome(old(st), old(st.(w := Effected(st.w, DropVm(name)))), ok, st)
    {
      var fate := Decide();
      if fate != FailsBefore {
        Fire(DeleteVm(name));
      }
      Interfere();
      ok := fate == Commits;
      if !ok {
        undeleted := undeleted + 1;
      }
    }

    // ---- Forgejo ----

    /** `Runners`: every runner of the scope, of whatever controller and pool. */
    method Runners() returns (ok: bool, list: seq<ListedRunner>)
      requires Valid()
      modifies this
      ensures Valid() && Quiet(old(journal), journal) && Drifts(old(st), st)
      ensures faults >= old(faults) && spawned == old(spawned) && (ok <==> faults == old(faults))
      ensures ok ==> ListsRunners(list, old(st.w.runners.Keys), Config.RunnerDescription(controller, poolName))
    {
      var fate := Decide();
      list := [];
      if fate == Commits {
        list := InScope(st.w.runners.Keys, Config.RunnerDescription(controller, poolName));
      }
      Interfere();
      ok := fate == Commits;
    }

    static method InScope(runners: set<int>, description: string) returns (list: seq<ListedRunner>)
      ensures ListsRunners(list, runners, description)
    {
      list := *;
      if exists k | 0 <= k < |list| :: list[k].description == description {
        list := [];
      }
      var rest: set<ListedRunner> := set r | r in runners :: ListedRunner(r, description);
      while rest != {}
        invariant forall x :: x in rest ==> x.runner in runners && x.description == description
        invariant forall k :: 0 <= k < |list| && list[k].description == description ==> list[k].runner in runners
        invariant forall r :: r in runners && ListedRunner(r, description) !in rest ==>
                    exists k :: 0 <= k < |list| && list[k] == ListedRunner(r, description)
      {
        var x: ListedRunner :| x in rest;
        rest := rest - {x};
        ghost var before := list;
        list := list + [x];
        assert list[|before|] == x;
        assert forall k :: 0 <= k < |before| ==> list[k] == before[k];
      }
    }

    /** Looks a runner up. An unknown status counts as a fault of the server. */
    method Runner(r: int) returns (seen: Lookup)
      requires Valid()
      modifies this
      ensures Valid() && Quiet(old(journal), journal) && Drifts(old(st), st)
      ensures faults >= old(faults) && spawned == old(spawned)
      ensures match seen
              case Gone => r !in old(st.w.runners) && faults == old(faults)
              case NoAnswer => faults > old(faults)
              case Shows(status) =>
                && r in old(st.w.runners) && old(st.w.runners)[r] == status
                && (status == RunnerUnknown <==> faults > old(faults))
    {
      var fate := Decide();
      if fate != Commits {
        seen := NoAnswer;
      } else if r !in st.w.runners {
        seen := Gone;
      } else {
        seen := Shows(st.w.runners[r]);
        if st.w.runners[r] == RunnerUnknown {
          faults := faults + 1;
        }
      }
      Interfere();
    }

    /** Deletes a runner; the caller takes "not found" for success, and so does `ok`. */
    method RemoveRunner(r: int) returns (ok: bool)
      requires Valid() && Enabled(pool, st, DeleteRunner(r)) && Justified(pool, start, journal, st, DeleteRunner(r))
      modifies this
      ensures Valid() && Only(old(journal), journal, DeleteRunner(r))
      ensures faults >= old(faults) && spawned == old(spawned) && (ok <==> faults == old(faults))
      ensures undeleted == old(undeleted) + if ok then 0 else 1
      ensures Outcome(old(st), old(st.(w := Effected(st.w, DropRunner(r)))), ok, st)
    {
      var fate := Decide();
      if fate != FailsBefore {
        Fire(DeleteRunner(r));
      }
      Interfere();
      ok := fate == Commits;
      if !ok {
        undeleted := undeleted + 1;
      }
    }
  }

  /** What the guard accepts is a step of the protocol, and what it refuses is counted. */
  lemma MayUpdate(pool: Scaling, start: PoolState, journal: seq<Label>, s: PoolState, id: string, call: Call)
    requires InPass(s) && Live(s.w, id) && !call.SetRegistration?
    requires call.MarkReady? || call.MarkRunning? ==> s.w.records[id].runner != 0
    requires call.FinishCleanup? ==> s.w.records[id].name !in s.w.vms && s.w.records[id].runner !in s.w.runners
    ensures Change(s.w.records[id], call).Some? ==>
              && Enabled(pool, s, StoreCall(id, call)) && Justified(pool, start, journal, s, StoreCall(id, call))
              && Do(pool, s, StoreCall(id, call)) == Written(s, id, call)
    ensures Enabled(pool, s, RefusedCall) && Justified(pool, start, journal, s, RefusedCall)
    ensures Do(pool, s, RefusedCall) == s.(refused := s.refused + 1)
  {
    hide Change;
  }

  ghost predicate Keyed(records: map<string, Instance>) {
    forall id :: id in records ==> records[id].id == id
  }

  ghost predicate ListsVms(list: seq<ManagedVm>, vms: map<string, string>) {
    && (forall k :: 0 <= k < |list| ==> list[k].name in vms && vms[list[k].name] == list[k].id)
    && (forall j, k :: 0 <= j < k < |list| ==> list[j].name != list[k].name)
    && (forall n :: n in vms ==> exists k :: 0 <= k < |list| && list[k].name == n)
  }

  ghost predicate ListsRunners(list: seq<ListedRunner>, runners: set<int>, description: string) {
    && (forall k :: 0 <= k < |list| && list[k].description == description ==> list[k].runner in runners)
    && (forall r :: r in runners ==> exists k :: 0 <= k < |list| && list[k] == ListedRunner(r, description))
  }

  lemma ReachedBook(pool: Scaling, start: PoolState, journal: seq<Label>, s: PoolState)
    requires Reached(pool, start, journal, s)
    ensures BookKept(s.book)
  {
    ReachedInv(pool, start, journal, s);
  }

  lemma ReachedKeyed(pool: Scaling, start: PoolState, journal: seq<Label>, s: PoolState)
    requires Reached(pool, start, journal, s)
    ensures Keyed(s.w.records)
  {
    ReachedInv(pool, start, journal, s);
  }
}
