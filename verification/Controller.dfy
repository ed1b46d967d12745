/** The pass of the controller over one pool. Its methods are those of the source, call by
    call; they are proved to make only steps of the protocol, so that what holds of all runs
    of the protocol holds of them, and to do what each is for. */
module Controller {
  import opened Arithmetic
  import opened Lifecycle
  import opened Records
  import opened InstanceStore
  import opened Scheduler
  import opened Stores
  import opened Protocol
  import opened Runs
  import opened Cleanups
  import opened Sweeps
  import opened Recovery
  import opened Retirement
  import opened Starts
  import S = Servers
  import B = Breaker
  import I = Incidents
  import P = Provision
  import Backoff
  import Config

  class Controller {
    const servers: S.Servers

    constructor (servers: S.Servers)
      ensures this.servers == servers
    {
      this.servers := servers;
    }

    method BeginCleanupOf(x: Instance, result: Result, reason: Reason, message: string) returns (ok: bool)
      requires servers.Valid() && InPass(servers.st) && Linked(servers.st.w, x) && Due(servers.st.w, x.id)
      modifies servers
      ensures servers.Valid() && OwnSteps(old(servers.journal), servers.journal, x)
      ensures servers.faults >= old(servers.faults) && (ok <==> servers.faults == old(servers.faults))
      ensures servers.spawned == old(servers.spawned) && servers.undeleted == old(servers.undeleted)
      ensures Spares(old(servers.st), servers.st, x)
      ensures servers.st.w.records[x.id] == x || Leaving(Begun(x, result, reason, message), servers.st.w.records[x.id])
      ensures ok ==> Tearing(old(servers.st), servers.st, x, Begun(x, result, reason, message), x.runner == 0, false)
      ensures ok ==> InCleanup(servers.pool, servers.start, old(servers.journal), servers.journal, x)
    {
      ghost var j0, s0, call := servers.journal, servers.st, BeginCleanup(result, reason, message);
      ok := servers.Update(x.id, BeginCleanup(result, reason, message));
      BeginTorn(s0, servers.st, x, result, reason, message, ok);
      if ok {
        CleanupOpens(servers.pool, servers.start, j0, s0, servers.journal, x, call);
      }
    }

    method SetCleanupStage(x: Instance, ghost j0: seq<Label>, ghost s0: PoolState, ghost begun: Instance)
      returns (ok: bool)
      requires servers.Valid() && InCleanup(servers.pool, servers.start, j0, servers.journal, x)
      requires Tearing(s0, servers.st, x, begun, true, false)
      modifies servers
      ensures servers.Valid() && old(servers.journal) <= servers.journal
      ensures servers.faults >= old(servers.faults) && (ok <==> servers.faults == old(servers.faults))
      ensures servers.spawned == old(servers.spawned) && servers.undeleted == old(servers.undeleted)
      ensures Tearing(s0, servers.st, x, begun, true, false)
      ensures InCleanup(servers.pool, servers.start, j0, servers.journal, x)
    {
      ghost var before := servers.journal;
      ok := servers.Update(x.id, SetStage(StageDeleteInstance));
      CleanupStaysOpen(servers.pool, servers.start, j0, before, servers.journal, x);
    }

    method DeleteRunnerOf(x: Instance, ghost j0: seq<Label>, ghost s0: PoolState, ghost begun: Instance)
      returns (ok: bool)
      requires servers.Valid() && InCleanup(servers.pool, servers.start, j0, servers.journal, x)
      requires Tearing(s0, servers.st, x, begun, false, false) && x.runner != 0
      modifies servers
      ensures servers.Valid() && old(servers.journal) <= servers.journal
      ensures servers.faults >= old(servers.faults) && (ok <==> servers.faults == old(servers.faults))
      ensures servers.spawned == old(servers.spawned)
      ensures servers.undeleted == old(servers.undeleted) + if ok then 0 else 1
      ensures Tearing(s0, servers.st, x, begun, ok, false)
      ensures InCleanup(servers.pool, servers.start, j0, servers.journal, x)
    {
      ghost var before, s := servers.journal, servers.st;
      OwnDeletions(servers.pool, servers.start, j0, before, s0, s, x, begun, false);
      ok := servers.RemoveRunner(x.runner);
      RunnerTorn(s0, s, servers.st, x, begun, ok);
      CleanupStaysOpen(servers.pool, servers.start, j0, before, servers.journal, x);
    }

    method DeleteInstanceOf(x: Instance, ghost j0: seq<Label>, ghost s0: PoolState, ghost begun: Instance)
      returns (ok: bool)
      requires servers.Valid() && InCleanup(servers.pool, servers.start, j0, servers.journal, x)
      requires Tearing(s0, servers.st, x, begun, true, false)
      modifies servers
      ensures servers.Valid() && old(servers.journal) <= servers.journal
      ensures servers.faults >= old(servers.faults) && (ok <==> servers.faults == old(servers.faults))
      ensures servers.spawned == old(servers.spawned)
      ensures servers.undeleted == old(servers.undeleted) + if ok then 0 else 1
      ensures Tearing(s0, servers.st, x, begun, true, ok)
      ensures OwnSteps(j0, servers.journal, x)
    {
      ghost var before, s := servers.journal, servers.st;
      OwnDeletions(servers.pool, servers.start, j0, before, s0, s, x, begun, true);
      ok := servers.DeleteInstance(x.name);
      VmTorn(s0, s, servers.st, x, begun, ok);
      OwnStepsOn(j0, before, servers.journal, x);
    }

    method FinishCleanupOf(x: Instance, ghost j0: seq<Label>, ghost s0: PoolState, ghost begun: Instance)
      returns (ok: bool)
      requires servers.Valid() && OwnSteps(j0, servers.journal, x)
      requires Tearing(s0, servers.st, x, begun, true, true)
      modifies servers
      ensures servers.Valid() && old(servers.journal) <= servers.journal
      ensures servers.faults >= old(servers.faults) && (ok <==> servers.faults == old(servers.faults))
      ensures servers.spawned == old(servers.spawned) && servers.undeleted == old(servers.undeleted)
      ensures OwnSteps(j0, servers.journal, x)
      ensures Spares(s0, servers.st, x) && Leaving(begun, servers.st.w.records[x.id])
      ensures ok ==> servers.st.w.records[x.id].state == Finished && Gone(servers.st.w, x)
    {
      ghost var before, s := servers.journal, servers.st;
      ok := servers.Update(x.id, FinishCleanup);
      FinishTorn(s0, s, servers.st, x, begun, ok);
      OwnStepsOn(j0, before, servers.journal, x);
    }

    /** Schedules the next attempt after a failed deletion, after exactly the backoff. */
    method RetryDelete(x: Instance, ghost j0: seq<Label>, ghost s0: PoolState, ghost begun: Instance)
      requires servers.Valid() && OwnSteps(j0, servers.journal, x)
      requires Tearing(s0, servers.st, x, begun, false, false)
      modifies servers
      ensures servers.Valid() && old(servers.journal) <= servers.journal && servers.faults >= old(servers.faults)
      ensures servers.spawned == old(servers.spawned) && servers.undeleted == old(servers.undeleted)
      ensures OwnSteps(j0, servers.journal, x)
      ensures Spares(s0, servers.st, x) && Leaving(begun, servers.st.w.records[x.id])
      ensures var before, after := old(servers.st.w.records[x.id]), servers.st.w.records[x.id];
              var counted :=
                && after.state == Cleaning && after.retryCount == x.retryCount + 1
                && after.retryAt == old(servers.st.w.clock) + Backoff.Delay(x.retryCount);
              (after == before || counted) && (servers.faults == old(servers.faults) ==> counted)
    {
      ghost var before, s := servers.journal, servers.st;
      var delay := Backoff.RetryDelay(x.retryCount);
      var cause: string := *;
      var at := servers.st.w.clock + delay;
      var ok := servers.Update(x.id, Retry(cause, at));
      RetryTorn(s0, s, servers.st, x, begun, cause, at, ok);
      OwnStepsOn(j0, before, servers.journal, x);
    }

    /** Ends with the record Finished and its VM and runner gone, or with an error; either way
        with the outcome of the first BeginCleanup, and without a step for anything else. If a
        deletion fails and nothing else, the next attempt is put off. */
    method Cleanup(x: Instance, result: Result, reason: Reason, message: string) returns (ok: bool)
      requires servers.Valid() && InPass(servers.st) && Linked(servers.st.w, x) && Due(servers.st.w, x.id)
      modifies servers
      ensures servers.Valid() && OwnSteps(old(servers.journal), servers.journal, x)
      ensures servers.faults >= old(servers.faults) && (ok <==> servers.faults == old(servers.faults))
      ensures servers.spawned == old(servers.spawned)
      ensures Spares(old(servers.st), servers.st, x)
      ensures servers.st.w.records[x.id] == x || Leaving(Begun(x, result, reason, message), servers.st.w.records[x.id])
      ensures ok ==> servers.st.w.records[x.id].state == Finished && Gone(servers.st.w, x)
      ensures servers.undeleted > old(servers.undeleted) && servers.faults == old(servers.faults) + 1 ==>
                PutOff(x, servers.st.w.records[x.id], old(servers.st.w.clock))
    {
      ghost var j0, s0, begun := servers.journal, servers.st, Begun(x, result, reason, message);
      ok := BeginCleanupOf(x, result, reason, message);
      if !ok {
        return;
      }
      if x.runner != 0 {
        ok := DeleteRunnerOf(x, j0, s0, begun);
        if !ok {
          RetryDelete(x, j0, s0, begun);
          return;
        }
      }
      ok := SetCleanupStage(x, j0, s0, begun);
      if !ok {
        return;
      }
      ok := DeleteInstanceOf(x, j0, s0, begun);
      if !ok {
        RetryDelete(x, j0, s0, begun);
        return;
      }
      ok := FinishCleanupOf(x, j0, s0, begun);
    }

    // ---- observation ----

    method Observe(x: Instance) returns (ok: bool)
      requires servers.Valid() && InPass(servers.st) && Linked(servers.st.w, x)
      requires x.state == Bootstrapping || x.state == Ready || x.state == Running
      modifies servers
      ensures servers.Valid() && OwnSteps(old(servers.journal), servers.journal, x)
      ensures servers.faults >= old(servers.faults) && (ok <==> servers.faults == old(servers.faults))
      ensures servers.spawned == old(servers.spawned)
      ensures Spares(old(servers.st), servers.st, x)
      ensures ok ==> Observed(x, StatusOf(old(servers.st.w.runners), x.runner), servers.st.w)
    {
      ghost var j0 := servers.journal;
      var seen := servers.Runner(x.runner);
      ghost var j1 := servers.journal;
      match seen
      case Gone => ok := Cleanup(x, Succeeded, JobCompleted, "");
      case NoAnswer => ok := false;
      case Shows(status) =>
        match status
        case RunnerIdle =>
          if x.state == Running {
            ok := Cleanup(x, Succeeded, JobCompleted, "");
          } else {
            ok := ObserveState(x, Ready);
          }
        case RunnerActive => ok := ObserveState(x, Running);
        case RunnerIsOffline => ok := Cleanup(x, Failed, RunnerOffline, "runner is offline");
        case RunnerUnknown => ok := false;
    }

    method ObserveState(x: Instance, state: State) returns (ok: bool)
      requires servers.Valid() && InPass(servers.st) && Linked(servers.st.w, x)
      requires x.state != Cleaning && (state == Running || (state == Ready && x.state != Running)) && x.runner != 0
      modifies servers
      ensures servers.Valid() && OwnSteps(old(servers.journal), servers.journal, x)
      ensures servers.faults >= old(servers.faults) && (ok <==> servers.faults == old(servers.faults))
      ensures servers.spawned == old(servers.spawned)
      ensures Spares(old(servers.st), servers.st, x)
      ensures ok ==> Marked(x, state, servers.st.w)
    {
      ghost var before := servers.st;
      if state == Ready {
        ok := servers.Update(x.id, MarkReady);
        MarkSpares(before, servers.st, x, MarkReady, ok);
      } else {
        ok := servers.Update(x.id, MarkRunning);
        MarkSpares(before, servers.st, x, MarkRunning, ok);
      }
    }

    // ---- scaling down ----

    method ReadyOf(list: seq<Instance>) returns (ready: seq<Instance>)
      ensures ready == Filtered(list, Ready)
    {
      ready := [];
      for k := 0 to |list|
        invariant ready == Filtered(list[..k], Ready)
      {
        assert list[..k + 1][..k] == list[..k];
        if list[k].state == Ready {
          ready := ready + [list[k]];
        }
      }
      assert list[..|list|] == list;
    }

    /** Retires idle VMs, but never takes the pool below what it should keep ready. */
    method ScaleDown(list: seq<Instance>, waiting: nat) returns (ok: bool)
      requires servers.Valid() && InPass(servers.st) && Lists(list, servers.st.w.records)
      modifies servers
      ensures servers.Valid() && old(servers.journal) <= servers.journal
      ensures servers.faults >= old(servers.faults) && (ok <==> servers.faults == old(servers.faults))
      ensures servers.spawned == old(servers.spawned)
      ensures Scaled(old(servers.st), servers.st, ok, servers.pool.minIdle + waiting, servers.pool.idleTimeout)
    {
      hide Retiring, AllRetired, Scaled, Filtered;
      ghost var s0 := servers.st;
      var idleTimeout := servers.pool.idleTimeout;
      var desired := servers.pool.minIdle + waiting;
      var ready := ReadyOf(list);
      var excess := |ready| - desired;
      RetiringBegins(s0, list, ready, desired, idleTimeout);
      for k := 0 to |ready|
        invariant servers.Valid() && old(servers.journal) <= servers.journal && servers.faults == old(servers.faults)
        invariant servers.spawned == old(servers.spawned) && InPass(servers.st)
        invariant Retiring(s0, servers.st, ready, k, excess, desired, idleTimeout)
        invariant AllRetired(s0, servers.st, ready, k, excess, desired, idleTimeout)
      {
        if excess <= 0 {
          ScaledAll(s0, servers.st, list, ready, k, excess, desired, idleTimeout);
          return true;
        }
        if servers.st.w.clock - ready[k].stateChangedAt < idleTimeout {
          NotRetired(s0, servers.st, ready, k, excess, desired, idleTimeout);
          continue;
        }
        ok := Retire(ready, k, s0, excess, desired);
        if !ok {
          ScaledSoFar(s0, servers.st, ready, k + 1, excess - 1, desired, idleTimeout);
          return;
        }
        excess := excess - 1;
      }
      ScaledAll(s0, servers.st, list, ready, |ready|, excess, desired, idleTimeout);
      ok := true;
    }

    /** One turn of the loop of `scaleDown`. */
    method Retire(ready: seq<Instance>, k: nat, ghost s0: PoolState, ghost excess: int,
                  ghost desired: int) returns (ok: bool)
      requires servers.Valid() && InPass(servers.st) && k < |ready| && excess > 0
      requires Retiring(s0, servers.st, ready, k, excess, desired, servers.pool.idleTimeout)
      requires AllRetired(s0, servers.st, ready, k, excess, desired, servers.pool.idleTimeout)
      requires ready[k].state == Ready && servers.st.w.clock - ready[k].stateChangedAt >= servers.pool.idleTimeout
      requires forall j :: k < j < |ready| ==> ready[j].id != ready[k].id
      modifies servers
      ensures servers.Valid() && old(servers.journal) <= servers.journal
      ensures servers.faults >= old(servers.faults) && (ok <==> servers.faults == old(servers.faults))
      ensures servers.spawned == old(servers.spawned) && InPass(servers.st)
      ensures Retiring(s0, servers.st, ready, k + 1, excess - 1, desired, servers.pool.idleTimeout)
      ensures ok ==> AllRetired(s0, servers.st, ready, k + 1, excess - 1, desired, servers.pool.idleTimeout)
    {
      ghost var before := servers.st;
      ReachedLinked(servers.pool, servers.start, servers.journal, servers.st, ready[k].id);
      ok := Cleanup(ready[k], Succeeded, IdleTimeout, "");
      RetireStep(s0, before, servers.st, ready, k, excess, desired, servers.pool.idleTimeout);
      if ok {
        RetiredWell(s0, before, servers.st, ready, k, excess, desired, servers.pool.idleTimeout);
      }
    }

    // ---- sweeping orphans ----

    /** Deletes the VMs of the pool that belong to no live record. */
    method SweepVms(known: map<string, string>) returns (ok: bool, managedIds: set<string>)
      requires servers.Valid() && InPass(servers.st) && Knows(known, servers.st.w)
      modifies servers
      ensures servers.Valid() && OrphansOnly(old(servers.journal), servers.journal, old(servers.st.w))
      ensures servers.faults >= old(servers.faults) && (ok <==> servers.faults == old(servers.faults))
      ensures servers.spawned == old(servers.spawned)
      ensures Passes(old(servers.st), servers.st) && servers.st.w.records == old(servers.st.w.records)
      ensures ok ==> AllManaged(servers.st, known, managedIds) && SeenIn(old(servers.st.w), known, managedIds)
    {
      ghost var j0, s0 := servers.journal, servers.st;
      ReachedWired(servers.pool, servers.start, j0, s0);
      managedIds := {};
      var managed;
      ok, managed := servers.Managed();
      if !ok {
        return;
      }
      for k := 0 to |managed|
        invariant servers.Valid() && OrphansOnly(j0, servers.journal, s0.w) && servers.faults == old(servers.faults)
        invariant servers.spawned == old(servers.spawned)
        invariant VmsSwept(s0, servers.st, managed, k, known, managedIds)
      {
        if managed[k].id in known {
          TaggedName(s0.w, known, managed[k].name);
          if known[managed[k].id] != managed[k].name {
            assert false;
          }
          ManagedFound(s0, servers.st, managed, k, known, managedIds);
          managedIds := managedIds + {managed[k].id};
        } else {
          ok := DeleteOrphan(managed, k, j0, s0, known, managedIds);
          if !ok {
            return;
          }
        }
      }
      AllVmsSwept(s0, servers.st, managed, known, managedIds);
      ok := true;
    }

    /** The orphan among the managed VMs that the loop of `collectOrphans` has come to. */
    method DeleteOrphan(managed: seq<S.ManagedVm>, k: nat, ghost j0: seq<Label>, ghost s0: PoolState,
                        ghost known: map<string, string>, ghost managedIds: set<string>)
      returns (ok: bool)
      requires servers.Valid() && InPass(servers.st) && OrphansOnly(j0, servers.journal, s0.w)
      requires Wired(s0.w) && s0.w.vms.Keys <= s0.claims
      requires VmsSwept(s0, servers.st, managed, k, known, managedIds) && k < |managed| && managed[k].id !in known
      modifies servers
      ensures servers.Valid() && OrphansOnly(j0, servers.journal, s0.w)
      ensures servers.faults >= old(servers.faults) && (ok <==> servers.faults == old(servers.faults))
      ensures servers.spawned == old(servers.spawned)
      ensures ok ==> VmsSwept(s0, servers.st, managed, k + 1, known, managedIds)
      ensures Passes(s0, servers.st) && servers.st.w.records == s0.w.records
    {
      ghost var before, j1 := servers.st, servers.journal;
      OrphanVm(servers.pool, servers.start, j1, s0, before, managed[k].name);
      ok := servers.DeleteInstance(managed[k].name);
      OrphansOnlyOn(j0, j1, servers.journal, s0.w, managed[k].name);
      OrphanGone(s0, before, servers.st, managed, k, known, managedIds, ok);
    }

    /** Ends the records whose VM has disappeared. */
    method SweepMissing(list: seq<Instance>, managedIds: set<string>) returns (ok: bool)
      requires servers.Valid() && InPass(servers.st) && Lists(list, servers.st.w.records)
      modifies servers
      ensures servers.Valid() && MissingOnly(old(servers.journal), servers.journal, old(servers.st.w), managedIds)
      ensures servers.faults >= old(servers.faults) && (ok <==> servers.faults == old(servers.faults))
      ensures servers.spawned == old(servers.spawned)
      ensures Passes(old(servers.st), servers.st)
      ensures MissingEnded(old(servers.st), servers.st, managedIds, ok)
      ensures ok ==> NoneMissing(servers.st.w.records, managedIds)
    {
      hide MissingOnly, MissingEnded, MissingDone, Unread, NoneMissing;
      ghost var j0, s0 := servers.journal, servers.st;
      MissingBegins(j0, s0, list, managedIds);
      for k := 0 to |list|
        invariant servers.Valid() && MissingOnly(j0, servers.journal, s0.w, managedIds)
        invariant servers.faults == old(servers.faults) && servers.spawned == old(servers.spawned)
        invariant Unread(servers.st, list, k) && Passes(s0, servers.st)
        invariant MissingEnded(s0, servers.st, managedIds, true)
        invariant MissingDone(servers.st, list, k, managedIds)
      {
        if (list[k].state != Ready && list[k].state != Running) || list[k].id in managedIds {
          NotMissing(s0, servers.st, list, k, managedIds);
          continue;
        }
        ok := EndMissing(list, k, j0, s0, managedIds);
        if !ok {
          return;
        }
      }
      AllMissingDone(s0, servers.st, list, managedIds);
      ok := true;
    }

    /** One turn of the loop over the records. */
    method EndMissing(list: seq<Instance>, k: nat, ghost j0: seq<Label>, ghost s0: PoolState,
                      ghost managedIds: set<string>)
      returns (ok: bool)
      requires servers.Valid() && InPass(servers.st) && k < |list|
      requires MissingOnly(j0, servers.journal, s0.w, managedIds)
      requires Unread(servers.st, list, k) && Passes(s0, servers.st) && MissingEnded(s0, servers.st, managedIds, true)
      requires MissingDone(servers.st, list, k, managedIds)
      requires (list[k].state == Ready || list[k].state == Running) && list[k].id !in managedIds
      modifies servers
      ensures servers.Valid() && MissingOnly(j0, servers.journal, s0.w, managedIds)
      ensures servers.faults >= old(servers.faults) && (ok <==> servers.faults == old(servers.faults))
      ensures servers.spawned == old(servers.spawned)
      ensures Unread(servers.st, list, k + 1) && Passes(s0, servers.st) && MissingEnded(s0, servers.st, managedIds, ok)
      ensures ok ==> MissingDone(servers.st, list, k + 1, managedIds)
    {
      hide MissingOnly, MissingEnded, MissingDone, OwnSteps;
      ghost var before, j1 := servers.st, servers.journal;
      ReachedLinked(servers.pool, servers.start, j1, before, list[k].id);
      ok := Cleanup(list[k], Failed, InstanceMissing, MISSING);
      if ok {
        OneMoreDone(before, servers.st, list, k, managedIds);
      }
      MissingOnlyOn(j0, j1, servers.journal, s0.w, managedIds, list[k]);
      OneMoreMissing(s0, before, servers.st, list, k, managedIds, ok);
    }

    /** Deletes the runners registered for the pool that no live record holds, and no other
        runner of the scope. */
    method SweepRunners(runnerIds: set<int>) returns (ok: bool)
      requires servers.Valid() && InPass(servers.st) && HeldIn(servers.st.w, runnerIds)
      modifies servers
      ensures servers.Valid() && UnheldOnly(old(servers.journal), servers.journal, old(servers.st.w), runnerIds)
      ensures servers.faults >= old(servers.faults) && (ok <==> servers.faults == old(servers.faults))
      ensures servers.spawned == old(servers.spawned)
      ensures Passes(old(servers.st), servers.st) && servers.st.w.records == old(servers.st.w.records)
      ensures ok ==> RunnersIn(servers.st.w, runnerIds)
    {
      ghost var j0, s0 := servers.journal, servers.st;
      ReachedWired(servers.pool, servers.start, j0, s0);
      var runners;
      ok, runners := servers.Runners();
      QuietUnheld(j0, servers.journal, s0.w, runnerIds);
      if !ok {
        return;
      }
      var description := Config.RunnerDescription(servers.controller, servers.poolName);
      for k := 0 to |runners|
        invariant servers.Valid() && UnheldOnly(j0, servers.journal, s0.w, runnerIds)
        invariant servers.faults == old(servers.faults) && servers.spawned == old(servers.spawned)
        invariant RunnersSwept(s0, servers.st, runners, k, description, runnerIds)
      {
        if runners[k].description != description {
          continue;
        }
        if runners[k].runner in runnerIds {
          continue;
        }
        ok := DeleteUnheld(runners, k, j0, s0, description, runnerIds);
        if !ok {
          return;
        }
      }
      AllRunnersSwept(s0, servers.st, runners, description, runnerIds);
      ok := true;
    }

    /** The runner that the loop over the runners has come to. */
    method DeleteUnheld(runners: seq<S.ListedRunner>, k: nat, ghost j0: seq<Label>, ghost s0: PoolState,
                        ghost description: string, ghost runnerIds: set<int>)
      returns (ok: bool)
      requires servers.Valid() && InPass(servers.st) && UnheldOnly(j0, servers.journal, s0.w, runnerIds)
      requires RunnersSwept(s0, servers.st, runners, k, description, runnerIds) && k < |runners|
      requires runners[k].description == description && runners[k].runner !in runnerIds
      modifies servers
      ensures servers.Valid() && UnheldOnly(j0, servers.journal, s0.w, runnerIds)
      ensures servers.faults >= old(servers.faults) && (ok <==> servers.faults == old(servers.faults))
      ensures servers.spawned == old(servers.spawned)
      ensures Passes(s0, servers.st) && servers.st.w.records == s0.w.records
      ensures ok ==> RunnersSwept(s0, servers.st, runners, k + 1, description, runnerIds)
    {
      ghost var before, j1 := servers.st, servers.journal;
      OrphanRunner(servers.pool, servers.start, j1, before, runners[k].runner, runnerIds);
      ok := servers.RemoveRunner(runners[k].runner);
      UnheldOnlyOn(j0, j1, servers.journal, s0.w, runnerIds, runners[k].runner);
      RunnerGone(s0, before, servers.st, runners, k, description, runnerIds, ok);
    }

    /** `instanceNames` and `runnerIDs`. */
    method Index(list: seq<Instance>) returns (known: map<string, string>, runnerIds: set<int>)
      ensures forall id :: id in known <==> exists k :: 0 <= k < |list| && list[k].id == id
      ensures (forall j, k :: 0 <= j < k < |list| ==> list[j].id != list[k].id) ==>
                forall k :: 0 <= k < |list| ==> known[list[k].id] == list[k].name
      ensures forall k :: 0 <= k < |list| && list[k].runner != 0 ==> list[k].runner in runnerIds
      ensures forall r :: r in runnerIds ==> exists k :: 0 <= k < |list| && list[k].runner == r && r != 0
    {
      known, runnerIds := map[], {};
      for k := 0 to |list|
        invariant forall id :: id in known <==> exists j :: 0 <= j < k && list[j].id == id
        invariant (forall i, j :: 0 <= i < j < |list| ==> list[i].id != list[j].id) ==>
                    forall j :: 0 <= j < k ==> known[list[j].id] == list[j].name
        invariant forall j :: 0 <= j < k && list[j].runner != 0 ==> list[j].runner in runnerIds
        invariant forall r :: r in runnerIds ==> exists j :: 0 <= j < k && list[j].runner == r && r != 0
      {
        known := known[list[k].id := list[k].name];
        if list[k].runner != 0 {
          runnerIds := runnerIds + {list[k].runner};
        }
      }
    }

    /** Deletes no VM of a live record that was there when it began, and gives a record up only
        because it had none. When it succeeds nothing is orphaned, and every record in use had
        its VM. */
    method CollectOrphans(list: seq<Instance>) returns (ok: bool)
      requires servers.Valid() && InPass(servers.st) && Lists(list, servers.st.w.records)
      modifies servers
      ensures servers.Valid() && TakesNothing(old(servers.journal), servers.journal, old(servers.st.w))
      ensures servers.faults >= old(servers.faults) && (ok <==> servers.faults == old(servers.faults))
      ensures servers.spawned == old(servers.spawned)
      ensures Collected(old(servers.st), servers.st, ok)
      ensures ok ==> Swept(servers.st.w) && Backed(old(servers.st.w), servers.st.w)
    {
      ghost var j0, s0 := servers.journal, servers.st;
      ReachedWired(servers.pool, servers.start, j0, s0);
      var known, runnerIds := Index(list);
      Indexed(list, s0.w, known, runnerIds);
      var managedIds;
      ok, managedIds := SweepVms(known);
      ghost var j1, s1 := servers.journal, servers.st;
      CollectedOnlyVms(s0, s1);
      NothingTakenYet(j0, j1, s0.w);
      if !ok {
        return;
      }
      ok := SweepMissing(list, managedIds);
      ghost var j2, s2 := servers.journal, servers.st;
      EndedOnlyWithoutVm(s0, s1, s2, known, managedIds, ok);
      NothingTaken(j0, j1, j2, s0.w, known, managedIds);
      if !ok {
        return;
      }
      ok := SweepHolders(s0, s1, runnerIds, managedIds, j0);
      if ok {
        NothingOrphaned(s0, s1, s2, servers.st, known, runnerIds, managedIds);
        AllBacked(s0, s1, s2, known, managedIds);
      }
    }

    /** The last of the three loops, in its place. */
    method SweepHolders(ghost s0: PoolState, ghost s1: PoolState, runnerIds: set<int>, ghost managedIds: set<string>,
                        ghost j0: seq<Label>)
      returns (ok: bool)
      requires servers.Valid() && InPass(servers.st) && TakesNothing(j0, servers.journal, s0.w)
      requires HeldIn(s0.w, runnerIds) && s1.w.records == s0.w.records && Collected(s0, servers.st, true)
      requires s1.w.records.Keys == servers.st.w.records.Keys && MissingEnded(s1, servers.st, managedIds, true)
      modifies servers
      ensures servers.Valid() && TakesNothing(j0, servers.journal, s0.w)
      ensures servers.faults >= old(servers.faults) && (ok <==> servers.faults == old(servers.faults))
      ensures servers.spawned == old(servers.spawned)
      ensures Passes(old(servers.st), servers.st) && servers.st.w.records == old(servers.st.w.records)
      ensures Collected(s0, servers.st, true)
      ensures ok ==> RunnersIn(servers.st.w, runnerIds)
    {
      ghost var j2, s2 := servers.journal, servers.st;
      StillHeld(s0, s1, s2, runnerIds, managedIds);
      ok := SweepRunners(runnerIds);
      CollectedThenRunners(s0, s2, servers.st);
      NothingTakenLater(j0, j2, servers.journal, s0.w, s2.w, runnerIds);
    }

    // ---- reconciling instances ----

    /** What the pass does with one record. */
    method Dispatch(x: Instance) returns (ok: bool)
      requires servers.Valid() && InPass(servers.st) && Linked(servers.st.w, x)
      modifies servers
      ensures servers.Valid() && OwnSteps(old(servers.journal), servers.journal, x)
      ensures servers.faults >= old(servers.faults) && (ok <==> servers.faults == old(servers.faults))
      ensures servers.spawned == old(servers.spawned)
      ensures Spares(old(servers.st), servers.st, x)
      ensures ok ==> Handled(x, old(servers.st.w), servers.st.w, servers.pool.maxLifetime)
      ensures !old(Due(servers.st.w, x.id)) ==> servers.st == old(servers.st) && servers.journal == old(servers.journal)
    {
      if x.state == Running && servers.st.w.clock - x.stateChangedAt >= servers.pool.maxLifetime {
        ok := Cleanup(x, Succeeded, MaxLifetime, "");
        return;
      }
      match x.state
      case Cleaning =>
        if x.retryAt != 0 && servers.st.w.clock < x.retryAt {
          return true;
        }
        ok := Cleanup(x, x.result, x.reason, x.error);
      case Bootstrapping =>
        if x.runner == 0 {
          ok := Cleanup(x, Failed, ControllerRecovery, "controller restarted during bootstrap");
        } else {
          ok := Observe(x);
        }
      case Ready => ok := Observe(x);
      case Running => ok := Observe(x);
    }

    /** The maintenance part of a pass. Without an error it ends with nothing orphaned, and
        every record there was has been dealt with; errors come only from faults. */
    method ReconcileInstances() returns (ok: bool)
      requires servers.Valid() && servers.st.phase == Sweeping
      modifies servers
      ensures servers.Valid() && old(servers.journal) <= servers.journal
      ensures servers.faults >= old(servers.faults) && (ok <==> servers.faults == old(servers.faults))
      ensures servers.spawned == old(servers.spawned)
      ensures InPass(servers.st) && Passes(old(servers.st).(phase := servers.st.phase), servers.st)
      ensures ok ==> servers.st.phase == Maintaining
      ensures ok ==> Recovered(servers.pool, servers.start, servers.journal, |old(servers.journal)|, old(servers.st.w),
                               servers.st.w)
    {
      ghost var from, s0 := |servers.journal|, servers.st;
      ReachedWired(servers.pool, servers.start, servers.journal, s0);
      var list;
      ok, list := servers.ListPool();
      ghost var sc := servers.st;
      if !ok {
        return;
      }
      ok := CollectOrphans(list);
      if !ok {
        return;
      }
      ghost var collected := servers.st;
      servers.Fire(SweepDone);
      ok, list := servers.ListPool();
      if !ok {
        return;
      }
      ok := DispatchAll(list, from, s0, sc, collected);
    }

    /** The loop over the records as they are after the sweep. */
    method DispatchAll(list: seq<Instance>, ghost from: nat, ghost s0: PoolState, ghost sc: PoolState,
                       ghost collected: PoolState)
      returns (ok: bool)
      requires servers.Valid() && servers.st.phase == Maintaining && Lists(list, servers.st.w.records)
      requires from <= |servers.journal| && SweptSince(s0, sc, collected, servers.st)
      modifies servers
      ensures servers.Valid() && old(servers.journal) <= servers.journal
      ensures servers.faults >= old(servers.faults) && (ok <==> servers.faults == old(servers.faults))
      ensures servers.spawned == old(servers.spawned)
      ensures Passes(old(servers.st), servers.st)
      ensures ok ==> Recovered(servers.pool, servers.start, servers.journal, from, s0.w, servers.st.w)
    {
      ghost var s1 := servers.st;
      BeginDispatch(servers.pool, servers.start, servers.journal, from, s0, sc, collected, s1, list);
      for k := 0 to |list|
        invariant servers.Valid() && old(servers.journal) <= servers.journal && servers.faults == old(servers.faults)
        invariant servers.spawned == old(servers.spawned)
        invariant Dispatched(servers.pool, servers.start, servers.journal, from, s0.w, s1, servers.st, list, k)
      {
        ok := DispatchOne(list, k, from, s0.w, s1);
        if !ok {
          return;
        }
      }
      AllDispatched(servers.pool, servers.start, servers.journal, from, s0, sc, collected, s1, servers.st, list);
      ok := true;
    }

    /** One turn of that loop. */
    method DispatchOne(list: seq<Instance>, k: nat, ghost from: nat, ghost w0: World, ghost s1: PoolState)
      returns (ok: bool)
      requires servers.Valid() && InPass(servers.st) && from <= |servers.journal| && k < |list|
      requires Dispatched(servers.pool, servers.start, servers.journal, from, w0, s1, servers.st, list, k)
      requires list[k].id in s1.w.records && s1.w.records[list[k].id].state != Finished
      modifies servers
      ensures servers.Valid() && old(servers.journal) <= servers.journal
      ensures servers.faults >= old(servers.faults) && (ok <==> servers.faults == old(servers.faults))
      ensures servers.spawned == old(servers.spawned)
      ensures Passes(s1, servers.st)
      ensures ok ==> Dispatched(servers.pool, servers.start, servers.journal, from, w0, s1, servers.st, list, k + 1)
    {
      ghost var before, j1 := servers.st, servers.journal;
      ReachedLinked(servers.pool, servers.start, j1, before, list[k].id);
      ok := Dispatch(list[k]);
      if ok {
        OneMoreDispatched(servers.pool, servers.start, j1, servers.journal, from, w0, s1, before, servers.st, list, k);
      }
    }

    // ---- provisioning ----

    /** A goroutine starts. An ID that is not new stands for an error of `newID`. */
    method SpawnOne(ghost s0: PoolState)
      requires servers.Valid() && Underway(s0, servers.st) && servers.st.bootstrap.granted > 0
      requires NewlyOwn(servers.poolName, s0.w, servers.st.w)
      modifies servers
      ensures NewlyOwn(servers.poolName, s0.w, servers.st.w)
      ensures servers.Valid() && old(servers.journal) <= servers.journal && servers.faults == old(servers.faults)
      ensures Underway(s0, servers.st) && servers.spawned == old(servers.spawned) + 1
      ensures servers.st.bootstrap.granted == old(servers.st.bootstrap.granted) - 1
    {
      hide NewlyOwn, Config.InstanceName;
      var id: string := *;
      var fate: Fate := *;
      if |id| < 12 || id in servers.st.w.records || id in servers.st.w.vms.Values {
        id, fate := "000000000000", FailsBefore;
      }
      var name := Config.InstanceName(servers.poolName, id);
      if name in servers.st.w.vms {
        fate := FailsBefore;
      }
      var now := servers.st.w.clock;
      var record := Instance(id, name, servers.poolName, Bootstrapping, NoStage, NoResult, NoReason, 0, "", 0, 0,
                             now, now);
      SpawnOwn(servers.poolName, s0.w, servers.pool, servers.st, record, fate);
      servers.Fire(Spawn(record, fate));
      ghost var w := servers.st.w;
      servers.Interfere();
      StillOwn(servers.poolName, s0.w, w, servers.st.w);
    }

    /** Some goroutine makes its next call. A choice the servers do not have is an error. */
    method ProceedWith(k: nat, ghost s0: PoolState)
      requires servers.Valid() && Underway(s0, servers.st)
      requires k < |servers.st.workers| && !servers.st.workers[k].pc.Done?
      requires NewlyOwn(servers.poolName, s0.w, servers.st.w)
      modifies servers
      ensures NewlyOwn(servers.poolName, s0.w, servers.st.w)
      ensures servers.Valid() && old(servers.journal) <= servers.journal && servers.faults == old(servers.faults)
      ensures Underway(s0, servers.st) && servers.spawned == old(servers.spawned)
      ensures servers.st.bootstrap.granted == old(servers.st.bootstrap.granted)
      ensures TotalLeft(servers.st.workers) < old(TotalLeft(servers.st.workers))
    {
      var choice: P.Choice := *;
      if !P.Fits(servers.st.w, servers.st.workers[k], choice) {
        choice := P.Choice(FailsBefore, 0, P.SeesError, "", false);
      }
      ProceedFacts(servers.pool, servers.start, servers.journal, servers.st, k, choice);
      ProceedOwn(servers.poolName, s0.w, servers.pool, servers.start, servers.journal, servers.st, k, choice);
      servers.Fire(Proceed(k, choice));
      servers.Interfere();
    }

    /** Runs `count` goroutines to their end, in any interleaving of their calls. */
    method ProvisionMany(count: nat) returns (succeeded: nat, ok: bool)
      requires servers.Valid() && servers.st.phase == Maintaining && servers.st.bootstrap.granted == count
      requires Enabled(servers.pool, servers.st, BeginProvisioning)
      modifies servers
      ensures servers.Valid() && old(servers.journal) <= servers.journal && servers.faults == old(servers.faults)
      ensures servers.st.refused == old(servers.st.refused) && servers.st.book == old(servers.st.book)
      ensures count > 0 ==> Provisioned(old(servers.st), servers.st)
      ensures count == 0 ==> servers.st == old(servers.st)
      ensures succeeded <= count && (ok <==> succeeded == count)
      ensures count > 0 ==> succeeded == Successes(servers.st.workers)
      ensures servers.spawned == old(servers.spawned) + count
      ensures NewlyOwn(servers.poolName, old(servers.st.w), servers.st.w)
    {
      if count == 0 {
        return 0, true;
      }
      ghost var s0 := servers.st;
      BegunUnderway(servers.pool, servers.start, servers.journal, s0);
      servers.Fire(BeginProvisioning);
      while servers.st.bootstrap.granted > 0 || !AllDone(servers.st.workers)
        invariant servers.Valid() && old(servers.journal) <= servers.journal && servers.faults == old(servers.faults)
        invariant Underway(s0, servers.st) && NewlyOwn(servers.poolName, s0.w, servers.st.w)
        invariant servers.spawned + servers.st.bootstrap.granted == old(servers.spawned) + count
        decreases servers.st.bootstrap.granted, TotalLeft(servers.st.workers)
      {
        var spawn: bool := *;
        if AllDone(servers.st.workers) || (spawn && servers.st.bootstrap.granted > 0) {
          SpawnOne(s0);
        } else {
          var k: nat :| k < |servers.st.workers| && !servers.st.workers[k].pc.Done?;
          ProceedWith(k, s0);
        }
      }
      succeeded := 0;
      for k := 0 to |servers.st.workers|
        invariant succeeded <= k && succeeded == Successes(servers.st.workers[..k])
      {
        assert servers.st.workers[..k + 1][..k] == servers.st.workers[..k];
        if servers.st.workers[k].pc == P.Done(true) {
          succeeded := succeeded + 1;
        }
      }
      assert servers.st.workers[..|servers.st.workers|] == servers.st.workers;
      ok := succeeded == count;
    }

    /** Starts what is needed, as far as the circuit breaker allows. */
    method ProvisionNeeded(needed: nat) returns (ok: bool)
      requires servers.Valid() && servers.st.phase == Maintaining && servers.st.bootstrap.granted == 0
      requires needed > 0 ==> |Active(servers.st.w.records)| + needed <= servers.pool.maxInstances
      requires needed > 0 ==> |Booting(servers.st.w)| + needed <= servers.pool.maxProvisioning
      modifies servers
      ensures servers.Valid() && old(servers.journal) <= servers.journal && servers.faults >= old(servers.faults)
      ensures servers.st.refused == old(servers.st.refused) && servers.st.book == old(servers.st.book)
      ensures servers.st.phase == Maintaining ||
              (servers.st.phase == Provisioning && servers.st.bootstrap.granted == 0 && AllDone(servers.st.workers))
      ensures ok ==> servers.spawned == old(servers.spawned) + old(StartsAllowed(servers.pool, servers.st, needed))
      ensures servers.spawned <= old(servers.spawned) + old(StartsAllowed(servers.pool, servers.st, needed))
      ensures ok && servers.st.phase == Provisioning ==> servers.st.bootstrap.row == B.Row(0, 0)
      ensures servers.faults == old(servers.faults) && servers.st.phase == Provisioning ==>
                RowSettled(servers.pool, servers.st, Successes(servers.st.workers),
                           old(Charged(servers.pool, servers.st, StartsAllowed(servers.pool, servers.st, needed))),
                           old(servers.st.w.clock))
      ensures ok <==> servers.faults == old(servers.faults) &&
                      !StartFailed(servers.st, servers.spawned - old(servers.spawned))
      ensures servers.st.phase != Provisioning ==> servers.spawned == old(servers.spawned)
      ensures old(CircuitOpen(servers.pool, servers.st)) ==>
                servers.st.phase == Maintaining && servers.st.w.records == old(servers.st.w.records)
      ensures old(CircuitOpen(servers.pool, servers.st)) && needed > 0 && servers.faults == old(servers.faults) ==>
                servers.st.bootstrap.row == old(ProbeSet(servers.pool, servers.st))
    {
      if needed == 0 {
        return true;
      }
      BreakerSound(servers.pool, servers.start, servers.journal, servers.st);
      B.ReserveBounds(servers.st.bootstrap.row, needed, servers.pool.attemptLimit,
                      servers.st.w.clock, servers.st.w.clock + servers.pool.retryInterval);
      var reservation;
      ok, reservation := servers.ReserveBootstrap(needed);
      if !ok || reservation.count == 0 {
        return;
      }
      ok := ProvisionReserved(reservation);
    }

    /** The rest of `provisionNeeded`, with a reservation that is not empty. */
    method ProvisionReserved(reservation: B.Reservation) returns (ok: bool)
      requires servers.Valid() && servers.st.phase == Maintaining && reservation.count > 0
      requires servers.st.bootstrap.granted == reservation.count && servers.st.bootstrap.row == reservation.state
      requires Enabled(servers.pool, servers.st, BeginProvisioning)
      modifies servers
      ensures servers.Valid() && old(servers.journal) <= servers.journal && servers.faults >= old(servers.faults)
      ensures servers.st.refused == old(servers.st.refused) && servers.st.book == old(servers.st.book)
      ensures servers.st.phase == Provisioning && servers.st.bootstrap.granted == 0 && AllDone(servers.st.workers)
      ensures servers.spawned == old(servers.spawned) + reservation.count
      ensures ok ==> servers.st.bootstrap.row == B.Row(0, 0)
      ensures servers.faults == old(servers.faults) ==>
                RowSettled(servers.pool, servers.st, Successes(servers.st.workers), reservation.state.attempts,
                           old(servers.st.w.clock))
      ensures ok <==> servers.faults == old(servers.faults) && !StartFailed(servers.st, reservation.count)
    {
      var succeeded, flawless := ProvisionMany(reservation.count);
      SuccessesCount(servers.st.workers);
      if succeeded > 0 {
        ok := servers.ResetBootstrap();
        return ok && flawless;
      }
      if flawless || reservation.state.attempts < servers.pool.attemptLimit {
        return flawless;
      }
      BreakerSound(servers.pool, servers.start, servers.journal, servers.st);
      var _ := servers.HoldBootstrap();
      ok := false;
    }

    // ---- the pass ----

    /** Scales down and then finds out what is needed. Scaling never fights itself: if any VM
        is needed, none has been retired. */
    method Rescale(waiting: nat) returns (ok: bool, needed: nat)
      requires servers.Valid() && servers.st.phase == Maintaining
      modifies servers
      ensures servers.Valid() && old(servers.journal) <= servers.journal
      ensures servers.faults >= old(servers.faults) && (ok <==> servers.faults == old(servers.faults))
      ensures servers.spawned == old(servers.spawned)
      ensures Passes(old(servers.st), servers.st)
      ensures ok ==> ScaledDown(old(servers.st), servers.st, servers.pool.minIdle + waiting, servers.pool.idleTimeout)
      ensures ok ==> needed == NeededFor(DemandAt(servers.pool, servers.st, waiting))
      ensures ok && needed > 0 ==> servers.st.w.records == old(servers.st.w.records)
    {
      hide Scaled, ScaledDown, NeededFor, Lists;
      needed := 0;
      ghost var before := servers.st;
      var list;
      ok, list := servers.ListPool();
      if !ok {
        return;
      }
      ok := servers.Ask();
      if !ok {
        return;
      }
      ghost var s0 := servers.st;
      ok := ScaleDown(list, waiting);
      ScaledPasses(before, s0, servers.st, ok, servers.pool.minIdle + waiting, servers.pool.idleTimeout);
      if !ok {
        return;
      }
      ghost var s1 := servers.st;
      ok, list := servers.ListPool();
      if !ok {
        return;
      }
      var pool := servers.pool;
      needed := Needed(waiting, pool.minIdle, pool.maxInstances, pool.maxProvisioning, list);
      DemandListed(pool, servers.st, waiting, list);
      RescaledNeeds(pool, before, s0, s1, servers.st, waiting);
    }

    /** The last part of the pass: down to what is wanted, or up to it. */
    method Resize(waiting: nat) returns (ok: bool)
      requires servers.Valid() && servers.st.phase == Maintaining && servers.st.bootstrap.granted == 0
      modifies servers
      ensures servers.Valid() && old(servers.journal) <= servers.journal && servers.faults >= old(servers.faults)
      ensures servers.st.refused == old(servers.st.refused) && servers.st.book == old(servers.st.book)
      ensures Enabled(servers.pool, servers.st, EndPass)
      ensures ok <==> servers.faults == old(servers.faults) &&
                      !StartFailed(servers.st, servers.spawned - old(servers.spawned))
      ensures servers.st.phase != Provisioning ==> servers.spawned == old(servers.spawned)
      ensures ok ==> StartedSince(servers.pool, servers.start, servers.journal, |old(servers.journal)|,
                                  old(servers.st.w.records), waiting, servers.spawned - old(servers.spawned))
    {
      ghost var from, records := |servers.journal|, servers.st.w.records;
      var needed;
      ok, needed := Rescale(waiting);
      if !ok {
        return;
      }
      NeededIsLargest(DemandAt(servers.pool, servers.st, waiting), needed);
      ghost var soFar, asked := servers.journal, servers.st;
      ok := ProvisionNeeded(needed);
      if ok {
        StartedNow(servers.pool, servers.start, soFar, servers.journal, from, asked, records, waiting,
                   servers.spawned - old(servers.spawned));
      }
    }

    /** Asks Forgejo for its jobs and counts those that wait for the pool. */
    method FetchDemand(labels: Config.Pool, jobs: seq<Config.Job>) returns (ok: bool, waiting: nat)
      requires servers.Valid()
      modifies servers
      ensures servers.Valid() && old(servers.journal) <= servers.journal
      ensures servers.faults >= old(servers.faults) && (ok <==> servers.faults == old(servers.faults))
      ensures servers.spawned == old(servers.spawned)
      ensures S.Drifts(old(servers.st), servers.st)
      ensures waiting == Config.Waiting(labels, jobs)
    {
      waiting := Config.CountWaiting(labels, jobs);
      ok := servers.Ask();
      if !ok {
        return;
      }
      ok := servers.Ask();
      if !ok {
        return;
      }
      ok := servers.Ask();
    }

    /** `ReconcilePool` after its first setProgress and before its FinishPool. `jobs` is what
        Forgejo would answer to the request for jobs. */
    method Pass(labels: Config.Pool, jobs: seq<Config.Job>) returns (ok: bool)
      requires servers.Valid() && servers.st.phase == Sweeping
      modifies servers
      ensures servers.Valid() && old(servers.journal) <= servers.journal && servers.faults >= old(servers.faults)
      ensures servers.st.refused == old(servers.st.refused) && servers.st.book == old(servers.st.book)
      ensures Enabled(servers.pool, servers.st, EndPass)
      ensures ok <==> servers.faults == old(servers.faults) &&
                      !StartFailed(servers.st, servers.spawned - old(servers.spawned))
      ensures servers.st.phase != Provisioning ==> servers.spawned == old(servers.spawned)
      ensures ok ==> Reconciled(servers.pool, servers.start, servers.journal, |old(servers.journal)|, old(servers.st.w),
                                Config.Waiting(labels, jobs), servers.spawned - old(servers.spawned))
    {
      hide Reconciled, Recovered, StartedSince, RecoveredAt, Config.Waiting, S.Ages;
      ghost var from, w0 := |servers.journal|, servers.st.w;
      NothingReserved(servers.pool, servers.start, servers.journal, servers.st);
      ok := ReconcileInstances();
      if !ok {
        return;
      }
      ghost var recovered, v := servers.journal, servers.st;
      WasNow(servers.pool, servers.start, recovered, v);
      var waiting;
      ok, waiting := FetchDemand(labels, jobs);
      if !ok {
        return;
      }
      ghost var later := servers.journal;
      ok := Resize(waiting);
      if ok {
        StartedStill(servers.pool, servers.start, servers.journal, servers.journal, |later|, |recovered|,
                     v.w.records, waiting, servers.spawned - old(servers.spawned));
        RecoveredThenStarted(servers.pool, servers.start, recovered, servers.journal, from, w0, v, waiting,
                             servers.spawned - old(servers.spawned));
      }
    }

    /** The pass of a run that is to be filed, and its FinishPool, which files a success for a
        whole pass and a failure for any other. */
    method FiledPass(runId: string, labels: Config.Pool, jobs: seq<Config.Job>) returns (ok: bool)
      requires servers.Valid() && servers.st.phase == Idle && servers.st.w.pending == map[]
      requires servers.st.book.owed == Some(runId)
      modifies servers
      ensures servers.Valid() && old(servers.journal) <= servers.journal && servers.faults >= old(servers.faults)
      ensures servers.st.phase == Idle && servers.st.refused == old(servers.st.refused)
      ensures servers.st.book.confirmed == None && servers.st.book.owed == None
      ensures servers.st.book.settled == old(servers.st.book.settled)
      ensures ok ==> servers.st.book.row == Some(RunRow(runId, I.RunSucceeded))
      ensures FiledRightly(servers.pool, servers.start, servers.journal, |old(servers.journal)|, old(servers.st.w),
                           Config.Waiting(labels, jobs), servers.spawned - old(servers.spawned),
                           old(servers.st.book.filings), servers.st.book.filings, servers.faults - old(servers.faults))
      ensures ok ==> Reconciled(servers.pool, servers.start, servers.journal, |old(servers.journal)|, old(servers.st.w),
                                Config.Waiting(labels, jobs), servers.spawned - old(servers.spawned))
    {
      hide Reconciled, Config.Waiting, S.Quiet, FiledRightly, StartFailed, Enabled, Do;
      ghost var from, w0, filings := |servers.journal|, servers.st.w, servers.st.book.filings;
      PassMoves(servers.pool, servers.st, runId);
      servers.Fire(BeginPass);
      ghost var first := |servers.journal|;
      ok := Pass(labels, jobs);
      ghost var soFar, ended, starts := servers.journal, servers.st, servers.spawned - old(servers.spawned);
      PassEnds(servers.pool, servers.st, runId);
      servers.Fire(EndPass);
      var state := if ok then I.RunSucceeded else I.RunFailed;
      var recorded := servers.FinishPool(runId, state);
      PassFiled(servers.pool, servers.start, soFar, servers.journal, first, from, w0, Config.Waiting(labels, jobs),
                starts, ended, filings, RunRow(runId, state), servers.faults - old(servers.faults));
      ok := ok && recorded;
    }

    /** One pass over the pool: recording its start and its first progress, the pass itself,
        and recording its result, which happens exactly if both records succeeded. What is
        recorded then is what has happened, also where the pass reports an error. */
    method ReconcilePool(labels: Config.Pool, jobs: seq<Config.Job>) returns (ok: bool)
      requires servers.Valid() && servers.st.phase == Idle && servers.st.w.pending == map[]
      requires servers.st.book.confirmed == None && servers.st.book.owed == None && servers.st.book.settled
      modifies servers
      ensures servers.Valid() && old(servers.journal) <= servers.journal && servers.faults >= old(servers.faults)
      ensures servers.st.phase == Idle && servers.st.refused == old(servers.st.refused)
      ensures servers.st.book.confirmed == None && servers.st.book.owed == None
      ensures servers.st.book.settled
      ensures ok ==> servers.st.book.row.Some? && servers.st.book.row.value.state == I.RunSucceeded
      ensures FiledRightly(servers.pool, servers.start, servers.journal, |old(servers.journal)|, old(servers.st.w),
                           Config.Waiting(labels, jobs), servers.spawned - old(servers.spawned),
                           old(servers.st.book.filings), servers.st.book.filings, servers.faults - old(servers.faults))
      ensures ok ==> Reconciled(servers.pool, servers.start, servers.journal, |old(servers.journal)|, old(servers.st.w),
                                Config.Waiting(labels, jobs), servers.spawned - old(servers.spawned))
    {
      hide Reconciled, Config.Waiting, FiledRightly, SomeStartFailed, StartsSucceeded;
      ghost var from, w0, filings := |servers.journal|, servers.st.w, servers.st.book.filings;
      ghost var waiting := Config.Waiting(labels, jobs);
      var runId: string := *;
      ok := servers.Ask();
      if ok {
        ok := servers.StartPool(runId);
      }
      if ok {
        ok := servers.ProgressPool(runId);
      }
      if !ok {
        NothingFiled(servers.pool, servers.start, servers.journal, from, w0, waiting, 0, filings,
                     servers.faults - old(servers.faults));
        return;
      }
      ghost var first, w1 := |servers.journal|, servers.st.w;
      ok := FiledPass(runId, labels, jobs);
      ghost var starts := servers.spawned - old(servers.spawned);
      FiledLater(servers.pool, servers.start, servers.journal, first, from, w1, w0, waiting, starts, filings,
                 servers.st.book.filings, servers.faults - old(servers.faults));
      if ok {
        ReconciledWhole(servers.pool, servers.start, servers.journal, servers.journal, first, from, w1, w0, waiting,
                        starts);
      }
    }

    /** The process comes up: it files the run that a dead one has left. If it cannot, it exits. */
    method ComeUp() returns (up: bool)
      requires servers.Valid() && servers.st.phase == Idle
      requires servers.st.book.confirmed == None && servers.st.book.owed == None
      modifies servers
      ensures servers.Valid() && servers.st.phase == Idle && servers.st.refused == old(servers.st.refused)
      ensures servers.st.book.confirmed == None && servers.st.book.owed == None
      ensures up ==> servers.st.book.settled
      ensures up && servers.st.book.row.Some? ==> servers.st.book.row.value.state != I.RunRunning
    {
      up := servers.InterruptPools();
    }

    /** `runPool`, over any number of passes and deaths of the process, each death between any
        two calls of the pass: the run stays within the pool's limits and the rate limit at
        every moment, no guard of the store ever refuses a call, and every deletion is of an
        orphan or belongs to the cleanup under way of its own record, begun when it was due. */
    method RunPool(labels: Config.Pool, passes: nat)
      requires servers.Valid() && servers.st.phase == Idle && servers.st.refused == servers.start.refused
      requires servers.st.book.confirmed == None && servers.st.book.owed == None
      modifies servers
      ensures servers.Valid() && servers.st.book.confirmed == None && servers.st.book.owed == None
      ensures forall k :: 0 <= k <= |servers.journal| ==>
                InOrder(servers.pool, servers.start, Exec(servers.pool, servers.start, servers.journal[..k]))
      ensures Deliberate(servers.pool, servers.start, servers.journal)
    {
      var up := false;
      for i := 0 to passes
        invariant servers.Valid() && servers.st.phase == Idle && servers.st.refused == servers.start.refused
        invariant servers.st.book.confirmed == None && servers.st.book.owed == None
        invariant up ==> servers.st.book.settled
      {
        if !up {
          up := ComeUp();
        } else {
          servers.SettlePending();
          var first := |servers.journal|;
          var jobs: seq<Config.Job> := *;
          var _ := ReconcilePool(labels, jobs);
          var dies: bool, k: nat := *, *;
          if dies && first <= k <= |servers.journal| {
            servers.Die(k);
            up := false;
          }
        }
      }
      AlwaysInOrder(servers.pool, servers.start, servers.journal, servers.st);
    }
  }
}
