/** The three loops of `collectOrphans`, over lists that were read at different moments, and
    what they leave behind together. */
module Sweeps {
  import opened Lifecycle
  import opened Records
  import opened Scheduler
  import opened Stores
  import opened Protocol
  import opened Runs
  import opened Cleanups
  import S = Servers

  /** How tags, names and runner IDs refer to each other. */
  ghost predicate Wired(w: World) {
    && (forall id :: id in w.records ==>
          && w.records[id].id == id && w.records[id].name in w.names && w.names[w.records[id].name] == id
          && (w.records[id].runner != 0 ==>
                w.records[id].runner in w.issued && w.issued[w.records[id].runner] == w.records[id].name))
    && (forall n :: n in w.names ==> w.names[n] in w.records && w.records[w.names[n]].name == n)
    && (forall n :: n in w.vms && n in w.names ==> w.vms[n] == w.names[n])
    && (forall n :: n in w.vms && w.vms[n] in w.records ==> n in w.names)
    && (forall r :: r in w.runners ==> r in w.issued)
    && 0 !in w.issued
  }

  lemma ReachedWired(pool: Scaling, start: PoolState, journal: seq<Label>, s: PoolState)
    requires Reached(pool, start, journal, s)
    ensures Wired(s.w) && s.w.vms.Keys <= s.claims
  {
    ReachedInv(pool, start, journal, s);
  }

  /** The name belongs to a live record. */
  ghost predicate LiveName(w: World, name: string) {
    name in w.names && Live(w, w.names[name])
  }

  /** `instanceNames`: the names of the live records by ID. */
  ghost predicate Knows(known: map<string, string>, w: World) {
    && known.Keys == Active(w.records)
    && forall id :: id in known ==> known[id] == w.records[id].name
  }

  /** The record with the ID in a VM's tags has the VM's name. */
  lemma TaggedName(w: World, known: map<string, string>, name: string)
    requires Wired(w) && Knows(known, w) && name in w.vms && w.vms[name] in known
    ensures known[w.vms[name]] == name
  {}

  /** Every runner of a live record is among the given ones. */
  ghost predicate HeldIn(w: World, runnerIds: set<int>) {
    forall id :: Live(w, id) ==> w.records[id].runner == 0 || w.records[id].runner in runnerIds
  }

  /** Every given runner is the runner of a live record. */
  ghost predicate HeldBy(w: World, runnerIds: set<int>) {
    forall r :: r in runnerIds ==> r != 0 && exists id :: Live(w, id) && w.records[id].runner == r
  }

  lemma Indexed(list: seq<Instance>, w: World, known: map<string, string>, runnerIds: set<int>)
    requires Lists(list, w.records)
    requires forall id :: id in known <==> exists k :: 0 <= k < |list| && list[k].id == id
    requires forall k :: 0 <= k < |list| ==> known[list[k].id] == list[k].name
    requires forall k :: 0 <= k < |list| && list[k].runner != 0 ==> list[k].runner in runnerIds
    requires forall r :: r in runnerIds ==> exists k :: 0 <= k < |list| && list[k].runner == r && r != 0
    ensures Knows(known, w) && HeldIn(w, runnerIds) && HeldBy(w, runnerIds)
  {
    forall id | id in known
      ensures id in Active(w.records) && known[id] == w.records[id].name
    {
      var k :| 0 <= k < |list| && list[k].id == id;
    }
    forall id | Live(w, id)
      ensures w.records[id].runner == 0 || w.records[id].runner in runnerIds
    {
      assert id in Active(w.records);
      var k :| 0 <= k < |list| && list[k].id == id;
    }
    forall r | r in runnerIds
      ensures r != 0 && exists id :: Live(w, id) && w.records[id].runner == r
    {
      var k :| 0 <= k < |list| && list[k].runner == r && r != 0;
      assert Live(w, list[k].id);
    }
  }

  // ---- the loop over the managed VMs ----

  /** Steps that delete no VM but of those that belong to no live record. */
  ghost predicate OrphansOnly(from: seq<Label>, to: seq<Label>, w: World) {
    from <= to &&
    forall i :: |from| <= i < |to| ==> to[i].Outside? || (to[i].DeleteVm? && !LiveName(w, to[i].name))
  }

  lemma OrphansOnlyOn(from: seq<Label>, journal: seq<Label>, later: seq<Label>, w: World, name: string)
    requires OrphansOnly(from, journal, w) && S.Only(journal, later, DeleteVm(name)) && !LiveName(w, name)
    ensures OrphansOnly(from, later, w)
  {
    forall i | |from| <= i < |later|
      ensures later[i].Outside? || (later[i].DeleteVm? && !LiveName(w, later[i].name))
    {
      if i < |journal| {
        assert later[i] == journal[i];
      }
    }
  }

  /** A VM that was listed and belongs to no live record may be deleted, on purpose. */
  lemma OrphanVm(pool: Scaling, start: PoolState, journal: seq<Label>, s0: PoolState, s: PoolState, name: string)
    requires Wired(s0.w) && s0.w.vms.Keys <= s0.claims && Passes(s0, s) && s.w.records == s0.w.records && InPass(s)
    requires name in s0.w.vms && !Live(s0.w, s0.w.vms[name])
    ensures Enabled(pool, s, DeleteVm(name)) && Justified(pool, start, journal, s, DeleteVm(name))
    ensures !LiveName(s0.w, name)
  {
    forall id | Live(s.w, id)
      ensures s.w.records[id].name != name
    {
      assert Live(s0.w, id);
    }
  }

  /** Where the loop stands. `ids` are the managed IDs found so far. */
  ghost predicate VmsSwept(s0: PoolState, s: PoolState, managed: seq<S.ManagedVm>, k: nat, known: map<string, string>,
                           ids: set<string>) {
    && Passes(s0, s) && s.w.records == s0.w.records && Knows(known, s0.w)
    && S.ListsVms(managed, s0.w.vms)
    && k <= |managed|
    && (forall j :: 0 <= j < k && managed[j].name in s.w.vms ==> managed[j].id in known)
    && (forall id :: id in ids <==> exists j :: 0 <= j < k && managed[j].id == id && id in known)
  }

  lemma ManagedFound(s0: PoolState, s: PoolState, managed: seq<S.ManagedVm>, k: nat, known: map<string, string>,
                     ids: set<string>)
    requires VmsSwept(s0, s, managed, k, known, ids) && k < |managed| && managed[k].id in known
    ensures VmsSwept(s0, s, managed, k + 1, known, ids + {managed[k].id})
  {}

  lemma OrphanGone(s0: PoolState, s: PoolState, s': PoolState, managed: seq<S.ManagedVm>, k: nat,
                   known: map<string, string>, ids: set<string>, ok: bool)
    requires VmsSwept(s0, s, managed, k, known, ids) && k < |managed| && managed[k].id !in known
    requires S.Outcome(s, s.(w := Effected(s.w, DropVm(managed[k].name))), ok, s')
    ensures Passes(s0, s') && s'.w.records == s0.w.records
    ensures ok ==> VmsSwept(s0, s', managed, k + 1, known, ids)
  {
    OrphanPasses(s0, s, s', managed[k].name, ok);
    if ok {
      forall id
        ensures id in ids <==> exists j :: 0 <= j < k + 1 && managed[j].id == id && id in known
      {}
    }
  }

  lemma OrphanPasses(s0: PoolState, s: PoolState, s': PoolState, name: string, ok: bool)
    requires Passes(s0, s) && S.Outcome(s, s.(w := Effected(s.w, DropVm(name))), ok, s')
    ensures Passes(s0, s') && s'.w.records == s.w.records
    ensures forall n :: n in s'.w.vms ==> n in s.w.vms && (ok ==> n != name)
  {}

  /** Every VM belongs to a live record and has been seen. */
  ghost predicate AllManaged(s: PoolState, known: map<string, string>, managedIds: set<string>) {
    forall n :: n in s.w.vms ==> s.w.vms[n] in known && s.w.vms[n] in managedIds
  }

  /** The managed IDs are those of the live records whose VM was there when they were listed. */
  ghost predicate SeenIn(w: World, known: map<string, string>, managedIds: set<string>) {
    forall id :: id in managedIds <==> id in known && known[id] in w.vms
  }

  lemma AllVmsSwept(s0: PoolState, s: PoolState, managed: seq<S.ManagedVm>, known: map<string, string>,
                    ids: set<string>)
    requires Wired(s0.w) && VmsSwept(s0, s, managed, |managed|, known, ids)
    ensures AllManaged(s, known, ids) && SeenIn(s0.w, known, ids)
  {
    forall n | n in s.w.vms
      ensures s.w.vms[n] in known && s.w.vms[n] in ids
    {
      var j :| 0 <= j < |managed| && managed[j].name == n;
    }
    forall id
      ensures id in ids <==> id in known && known[id] in s0.w.vms
    {
      if id in known && known[id] in s0.w.vms {
        var j :| 0 <= j < |managed| && managed[j].name == known[id];
        assert managed[j].id == id;
      }
      if id in ids {
        var j :| 0 <= j < |managed| && managed[j].id == id && id in known;
        assert s0.w.vms[managed[j].name] == id;
      }
    }
  }

  // ---- the loop over the records ----

  /** Steps that delete no VM of a live record but of those that were not found. */
  ghost predicate MissingOnly(from: seq<Label>, to: seq<Label>, w: World, managedIds: set<string>) {
    from <= to &&
    forall i :: |from| <= i < |to| && to[i].DeleteVm? && LiveName(w, to[i].name) ==> w.names[to[i].name] !in managedIds
  }

  lemma MissingOnlyOn(from: seq<Label>, journal: seq<Label>, later: seq<Label>, w: World, managedIds: set<string>,
                      x: Instance)
    requires MissingOnly(from, journal, w, managedIds) && OwnSteps(journal, later, x)
    requires x.id !in managedIds && x.name in w.names && w.names[x.name] == x.id
    ensures MissingOnly(from, later, w, managedIds)
  {
    forall i | |from| <= i < |later| && later[i].DeleteVm? && LiveName(w, later[i].name)
      ensures w.names[later[i].name] !in managedIds
    {
      if i < |journal| {
        assert later[i] == journal[i];
      } else {
        assert OwnStep(later[i], x);
      }
    }
  }

  /** Only records whose VM was not found have changed; with `complete`, those are Finished. */
  ghost predicate MissingEnded(s0: PoolState, s: PoolState, managedIds: set<string>, complete: bool)
    requires s.w.records.Keys == s0.w.records.Keys
  {
    forall id :: id in s0.w.records ==> Missed(s0.w.records[id], s.w, s.w.records[id], managedIds, complete)
  }

  ghost predicate Missed(before: Instance, w: World, after: Instance, managedIds: set<string>, complete: bool) {
    after == before ||
    (&& (before.state == Ready || before.state == Running) && before.id !in managedIds
     && Leaving(Begun(before, Failed, InstanceMissing, "managed instance is missing"), after)
     && (complete ==> after.state == Finished && Gone(w, before)))
  }

  lemma OneMoreMissing(s0: PoolState, s: PoolState, s': PoolState, list: seq<Instance>, k: nat,
                       managedIds: set<string>, ok: bool)
    requires Passes(s0, s) && MissingEnded(s0, s, managedIds, true) && Unread(s, list, k) && k < |list|
    requires Spares(s, s', list[k])
    requires (list[k].state == Ready || list[k].state == Running) && list[k].id !in managedIds
    requires var y := s'.w.records[list[k].id];
             && (y == list[k] || Leaving(Begun(list[k], Failed, InstanceMissing, "managed instance is missing"), y))
             && (ok ==> y.state == Finished && Gone(s'.w, list[k]))
    ensures Unread(s', list, k + 1) && Passes(s0, s') && MissingEnded(s0, s', managedIds, ok)
  {
    SparedUnread(s, s', list, k);
    forall id | id in s0.w.records
      ensures Missed(s0.w.records[id], s'.w, s'.w.records[id], managedIds, ok)
    {
      assert Missed(s0.w.records[id], s.w, s.w.records[id], managedIds, true);
    }
  }

  /** Every record in use has a VM that was found. */
  ghost predicate NoneMissing(records: map<string, Instance>, managedIds: set<string>) {
    forall id :: id in records && (records[id].state == Ready || records[id].state == Running) ==> id in managedIds
  }

  ghost predicate MissingDone(s: PoolState, list: seq<Instance>, k: nat, managedIds: set<string>)
    requires k <= |list|
  {
    forall j :: 0 <= j < k && list[j].id in s.w.records && list[j].id !in managedIds ==>
      s.w.records[list[j].id].state != Ready && s.w.records[list[j].id].state != Running
  }

  lemma MissingBegins(journal: seq<Label>, s: PoolState, list: seq<Instance>, managedIds: set<string>)
    requires Lists(list, s.w.records)
    ensures MissingOnly(journal, journal, s.w, managedIds) && Unread(s, list, 0)
    ensures MissingEnded(s, s, managedIds, true) && MissingDone(s, list, 0, managedIds)
  {}

  /** A record that is not in use, or whose VM was found, is left alone. */
  lemma NotMissing(s0: PoolState, s: PoolState, list: seq<Instance>, k: nat, managedIds: set<string>)
    requires k < |list| && Unread(s, list, k) && MissingDone(s, list, k, managedIds)
    requires (list[k].state != Ready && list[k].state != Running) || list[k].id in managedIds
    ensures Unread(s, list, k + 1) && MissingDone(s, list, k + 1, managedIds)
  {}

  lemma OneMoreDone(s: PoolState, s': PoolState, list: seq<Instance>, k: nat, managedIds: set<string>)
    requires k < |list| && MissingDone(s, list, k, managedIds) && Spares(s, s', list[k])
    requires list[k].id in s'.w.records ==> s'.w.records[list[k].id].state == Finished
    ensures MissingDone(s', list, k + 1, managedIds)
  {}

  lemma AllMissingDone(s0: PoolState, s: PoolState, list: seq<Instance>, managedIds: set<string>)
    requires Lists(list, s0.w.records) && MissingDone(s, list, |list|, managedIds)
    requires s.w.records.Keys == s0.w.records.Keys && MissingEnded(s0, s, managedIds, true)
    ensures NoneMissing(s.w.records, managedIds)
  {
    forall id | id in s.w.records && (s.w.records[id].state == Ready || s.w.records[id].state == Running)
      ensures id in managedIds
    {
      assert Missed(s0.w.records[id], s.w, s.w.records[id], managedIds, true);
      assert id in Active(s0.w.records);
      var j :| 0 <= j < |list| && list[j].id == id;
    }
  }

  // ---- the loop over the runners ----

  /** Steps that delete no runner but of those registered for the pool and held by no record. */
  ghost predicate UnheldOnly(from: seq<Label>, to: seq<Label>, w: World, runnerIds: set<int>) {
    from <= to &&
    forall i :: |from| <= i < |to| ==>
      to[i].Outside? || (to[i].DeleteRunner? && to[i].runner in w.issued && to[i].runner !in runnerIds)
  }

  lemma UnheldOnlyOn(from: seq<Label>, journal: seq<Label>, later: seq<Label>, w: World, runnerIds: set<int>, r: int)
    requires UnheldOnly(from, journal, w, runnerIds) && S.Only(journal, later, DeleteRunner(r))
    requires r in w.issued && r !in runnerIds
    ensures UnheldOnly(from, later, w, runnerIds)
  {
    forall i | |from| <= i < |later|
      ensures later[i].Outside? ||
              (later[i].DeleteRunner? && later[i].runner in w.issued && later[i].runner !in runnerIds)
    {
      if i < |journal| {
        assert later[i] == journal[i];
      }
    }
  }

  lemma QuietUnheld(from: seq<Label>, journal: seq<Label>, w: World, runnerIds: set<int>)
    requires S.Quiet(from, journal)
    ensures UnheldOnly(from, journal, w, runnerIds)
  {}

  lemma OrphanRunner(pool: Scaling, start: PoolState, journal: seq<Label>, s: PoolState, r: int, runnerIds: set<int>)
    requires InPass(s) && HeldIn(s.w, runnerIds) && r in s.w.issued && r !in runnerIds && r != 0
    ensures Enabled(pool, s, DeleteRunner(r)) && Justified(pool, start, journal, s, DeleteRunner(r))
  {
    assert OrphanRunnerId(s.w, r);
    if s.w.issued[r] in s.w.names && s.w.names[s.w.issued[r]] in s.w.records {
      var id := s.w.names[s.w.issued[r]];
      assert Live(s.w, id) ==> s.w.records[id].runner == 0 || s.w.records[id].runner in runnerIds;
    }
  }

  /** Where the loop over the runners of the scope stands. */
  ghost predicate RunnersSwept(s0: PoolState, s: PoolState, runners: seq<S.ListedRunner>, k: nat, description: string,
                               ids: set<int>) {
    && Passes(s0, s) && s.w.records == s0.w.records && HeldIn(s.w, ids)
    && k <= |runners|
    && (forall j :: 0 <= j < |runners| && runners[j].description == description ==>
          runners[j].runner in s.w.issued && runners[j].runner != 0)
    && (forall r :: r in s.w.runners ==> exists j :: 0 <= j < |runners| && runners[j] == S.ListedRunner(r, description))
    && (forall j :: 0 <= j < k && runners[j].description == description && runners[j].runner in s.w.runners ==>
          runners[j].runner in ids)
  }

  lemma RunnerGone(s0: PoolState, s: PoolState, s': PoolState, runners: seq<S.ListedRunner>, k: nat,
                   description: string, ids: set<int>, ok: bool)
    requires RunnersSwept(s0, s, runners, k, description, ids) && k < |runners|
    requires S.Outcome(s, s.(w := Effected(s.w, DropRunner(runners[k].runner))), ok, s')
    ensures Passes(s0, s') && s'.w.records == s0.w.records
    ensures ok ==> RunnersSwept(s0, s', runners, k + 1, description, ids)
  {
    assert forall id :: Live(s'.w, id) <==> Live(s.w, id);
  }

  ghost predicate RunnersIn(w: World, ids: set<int>) {
    forall r :: r in w.runners ==> r in ids
  }

  lemma AllRunnersSwept(s0: PoolState, s: PoolState, runners: seq<S.ListedRunner>, description: string, ids: set<int>)
    requires RunnersSwept(s0, s, runners, |runners|, description, ids)
    ensures RunnersIn(s.w, ids)
  {
    forall r | r in s.w.runners
      ensures r in ids
    {
      var j :| 0 <= j < |runners| && runners[j] == S.ListedRunner(r, description);
    }
  }

  // ---- the sweep as a whole ----

  /** What a sweep can have changed, even one that failed half way: a record is given up only
      because it had no VM when the sweep began; with `complete` that is done. */
  ghost predicate Collected(s0: PoolState, s: PoolState, complete: bool) {
    && Passes(s0, s)
    && (forall id :: id in s0.w.records ==>
          GivenUp(s0.w.records[id], s0.w.vms.Keys, s.w, s.w.records[id], complete))
  }

  ghost predicate GivenUp(before: Instance, vms: set<string>, w: World, after: Instance, complete: bool) {
    after == before ||
    (&& (before.state == Ready || before.state == Running) && before.name !in vms
     && Leaving(Begun(before, Failed, InstanceMissing, "managed instance is missing"), after)
     && (complete ==> after.state == Finished && Gone(w, before)))
  }

  /** In a sweep the pass deletes no VM of a live record that was there when it began. */
  ghost predicate TakesNothing(from: seq<Label>, to: seq<Label>, w0: World) {
    from <= to &&
    forall i :: |from| <= i < |to| && to[i].DeleteVm? ==> !LiveName(w0, to[i].name) || to[i].name !in w0.vms
  }

  /** Every record in use had its VM when the sweep began. */
  ghost predicate Backed(w0: World, w: World) {
    forall id :: id in w.records && (w.records[id].state == Ready || w.records[id].state == Running) ==>
      w.records[id].name in w0.vms
  }

  lemma NothingTaken(j0: seq<Label>, j1: seq<Label>, j2: seq<Label>, w: World, known: map<string, string>,
                     managedIds: set<string>)
    requires Wired(w) && Knows(known, w) && OrphansOnly(j0, j1, w) && MissingOnly(j1, j2, w, managedIds)
    requires SeenIn(w, known, managedIds)
    ensures TakesNothing(j0, j2, w)
  {
    forall i | |j0| <= i < |j2| && j2[i].DeleteVm? && LiveName(w, j2[i].name)
      ensures j2[i].name !in w.vms
    {
      if i < |j1| {
        assert j2[i] == j1[i];
      } else {
        assert known[w.names[j2[i].name]] == j2[i].name;
      }
    }
  }

  lemma NothingTakenYet(j0: seq<Label>, j1: seq<Label>, w: World)
    requires OrphansOnly(j0, j1, w)
    ensures TakesNothing(j0, j1, w)
  {}

  lemma NothingTakenLater(j0: seq<Label>, j2: seq<Label>, j3: seq<Label>, w0: World, w: World, runnerIds: set<int>)
    requires TakesNothing(j0, j2, w0) && UnheldOnly(j2, j3, w, runnerIds)
    ensures TakesNothing(j0, j3, w0)
  {
    forall i | |j0| <= i < |j3| && j3[i].DeleteVm?
      ensures !LiveName(w0, j3[i].name) || j3[i].name !in w0.vms
    {
      if i < |j2| {
        assert j3[i] == j2[i];
      }
    }
  }

  lemma CollectedOnlyVms(s0: PoolState, s1: PoolState)
    requires Passes(s0, s1) && s1.w.records == s0.w.records
    ensures Collected(s0, s1, true)
  {}

  lemma EndedOnlyWithoutVm(s0: PoolState, s1: PoolState, s2: PoolState, known: map<string, string>,
                           managedIds: set<string>, ok: bool)
    requires Wired(s0.w) && Knows(known, s0.w) && Passes(s0, s1) && s1.w.records == s0.w.records
    requires SeenIn(s0.w, known, managedIds)
    requires Passes(s1, s2) && MissingEnded(s1, s2, managedIds, ok)
    ensures Collected(s0, s2, ok)
  {
    forall id | id in s0.w.records
      ensures GivenUp(s0.w.records[id], s0.w.vms.Keys, s2.w, s2.w.records[id], ok)
    {
      assert Missed(s1.w.records[id], s2.w, s2.w.records[id], managedIds, ok);
    }
  }

  lemma CollectedThenRunners(s0: PoolState, s2: PoolState, s3: PoolState)
    requires Collected(s0, s2, true) && Passes(s2, s3) && s3.w.records == s2.w.records
    ensures Collected(s0, s3, true)
  {
    forall id | id in s0.w.records
      ensures GivenUp(s0.w.records[id], s0.w.vms.Keys, s3.w, s3.w.records[id], true)
    {
      assert GivenUp(s0.w.records[id], s0.w.vms.Keys, s2.w, s2.w.records[id], true);
    }
  }

  lemma StillHeld(s0: PoolState, s1: PoolState, s2: PoolState, runnerIds: set<int>, managedIds: set<string>)
    requires HeldIn(s0.w, runnerIds) && s1.w.records == s0.w.records
    requires s2.w.records.Keys == s1.w.records.Keys && MissingEnded(s1, s2, managedIds, true)
    ensures HeldIn(s2.w, runnerIds)
  {
    forall id | Live(s2.w, id)
      ensures s2.w.records[id].runner == 0 || s2.w.records[id].runner in runnerIds
    {
      assert Missed(s1.w.records[id], s2.w, s2.w.records[id], managedIds, true);
      assert Live(s0.w, id);
    }
  }

  /** The three loops together leave nothing orphaned. */
  lemma NothingOrphaned(s0: PoolState, s1: PoolState, s2: PoolState, s3: PoolState, known: map<string, string>,
                        runnerIds: set<int>, managedIds: set<string>)
    requires Wired(s0.w) && Knows(known, s0.w) && HeldBy(s0.w, runnerIds)
    requires Passes(s0, s1) && s1.w.records == s0.w.records && AllManaged(s1, known, managedIds)
    requires Passes(s1, s2) && MissingEnded(s1, s2, managedIds, true)
    requires Passes(s2, s3) && s3.w.records == s2.w.records && RunnersIn(s3.w, runnerIds)
    ensures Swept(s3.w)
  {
    forall n | n in s3.w.vms
      ensures n in s3.w.names && Live(s3.w, s3.w.names[n])
    {
      var id := s1.w.vms[n];
      assert n in s1.w.vms && n in s0.w.vms && id in known;
      assert Missed(s1.w.records[id], s2.w, s2.w.records[id], managedIds, true);
      assert s0.w.names[n] == id;
    }
    forall r | r in s3.w.runners
      ensures r in s3.w.issued && Holder(s3.w, r)
    {
      assert r in runnerIds;
      var id :| Live(s0.w, id) && s0.w.records[id].runner == r;
      assert Missed(s1.w.records[id], s2.w, s2.w.records[id], managedIds, true);
      assert r in s2.w.runners;
    }
  }

  lemma AllBacked(s0: PoolState, s1: PoolState, s2: PoolState, known: map<string, string>, managedIds: set<string>)
    requires Wired(s0.w) && Knows(known, s0.w) && Passes(s0, s1) && s1.w.records == s0.w.records
    requires SeenIn(s0.w, known, managedIds)
    requires Passes(s1, s2) && MissingEnded(s1, s2, managedIds, true) && NoneMissing(s2.w.records, managedIds)
    ensures Backed(s0.w, s2.w)
  {
    forall id | id in s2.w.records && (s2.w.records[id].state == Ready || s2.w.records[id].state == Running)
      ensures s2.w.records[id].name in s0.w.vms
    {
      assert Missed(s1.w.records[id], s2.w, s2.w.records[id], managedIds, true);
      assert id in managedIds;
    }
  }
}
