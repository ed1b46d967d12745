/** One record in the hands of the pass: what its cleanup and its observation do to it, and
    that they touch nothing else. */
module Cleanups {
  import opened Lifecycle
  import opened Records
  import opened Stores
  import opened Protocol
  import opened Runs
  import S = Servers
  import Backoff

  /** A record as the pass has read it, with its name, its VM and its runner in place. */
  ghost predicate Linked(w: World, x: Instance) {
    && x.id in w.records && w.records[x.id] == x && x.state != Finished
    && x.name in w.names && w.names[x.name] == x.id
    && (x.runner != 0 ==> x.runner in w.issued && w.issued[x.runner] == x.name)
    && 0 !in w.runners
  }

  lemma ReachedLinked(pool: Scaling, start: PoolState, journal: seq<Label>, s: PoolState, id: string)
    requires Reached(pool, start, journal, s) && Live(s.w, id)
    ensures Linked(s.w, s.w.records[id])
  {
    ReachedInv(pool, start, journal, s);
  }

  /** What calls of a pass can change at all. */
  ghost predicate Passes(s: PoolState, s': PoolState) {
    && s' == s.(w := s'.w)
    && s'.w.names == s.w.names && s'.w.issued == s.w.issued && s'.w.pending == s.w.pending
    && s'.w.records.Keys == s.w.records.Keys
    && S.Ages(s.w, s'.w)
  }

  /** No record but one has been touched. */
  ghost predicate Spares(s: PoolState, s': PoolState, x: Instance) {
    && Passes(s, s')
    && (forall o :: o in s.w.records && o != x.id ==> s'.w.records[o] == s.w.records[o])
  }

  /** A step the pass makes for one record: on the record, on its VM, on its runner. */
  predicate OwnStep(l: Label, x: Instance) {
    l.Outside? || (l.StoreCall? && l.id == x.id) || DeletesFor(x, l)
  }

  ghost predicate OwnSteps(from: seq<Label>, to: seq<Label>, x: Instance) {
    from <= to && forall i :: |from| <= i < |to| ==> OwnStep(to[i], x)
  }

  /** The record once its cleanup has begun: result and reason are settled. */
  function Begun(x: Instance, result: Result, reason: Reason, message: string): Instance
    requires x.state != Finished
  {
    Change(x, BeginCleanup(result, reason, message)).value
  }

  /** `y` is `x` on its way out: the outcome is the one cleanup began with. */
  ghost predicate Leaving(begun: Instance, y: Instance) {
    && y.id == begun.id && y.name == begun.name && y.runner == begun.runner
    && (y.state == Cleaning || y.state == Finished)
    && y.result == begun.result && y.reason == begun.reason && begun.error <= y.error
  }

  /** Neither the VM nor the runner of the record exists any more. */
  ghost predicate Gone(w: World, x: Instance) {
    x.name !in w.vms && x.runner !in w.runners
  }

  /** A cleanup of `x` that began in `s0` is under way: nothing else has changed since, and
      what has been deleted so far stays deleted. */
  ghost predicate Tearing(s0: PoolState, s: PoolState, x: Instance, begun: Instance, noRunner: bool, noVm: bool) {
    && InPass(s0) && Linked(s0.w, x) && Spares(s0, s, x)
    && Leaving(begun, s.w.records[x.id]) && begun.id == x.id && begun.name == x.name && begun.runner == x.runner
    && s.w.records[x.id].state == Cleaning && s.w.records[x.id].retryCount == x.retryCount
    && (noRunner ==> x.runner !in s.w.runners)
    && (noVm ==> x.name !in s.w.vms)
  }

  /** In the journal it began right after `from`, and all steps since were its own. */
  ghost predicate InCleanup(pool: Scaling, start: PoolState, from: seq<Label>, journal: seq<Label>, x: Instance) {
    OwnSteps(from, journal, x) && CleanupOpen(pool, start, journal, |from|, x.id)
  }

  lemma CleanupOpens(pool: Scaling, start: PoolState, from: seq<Label>, s: PoolState, journal: seq<Label>,
                     x: Instance, call: Call)
    requires Reached(pool, start, from, s) && Due(s.w, x.id) && call.BeginCleanup?
    requires S.Quiet(from + [StoreCall(x.id, call)], journal)
    ensures InCleanup(pool, start, from, journal, x)
  {
    ReachedMeans(pool, start, from, s);
    assert journal[..|from|] == from;
    assert journal[|from|] == StoreCall(x.id, call);
  }

  lemma CleanupStaysOpen(pool: Scaling, start: PoolState, from: seq<Label>, journal: seq<Label>, later: seq<Label>,
                         x: Instance)
    requires InCleanup(pool, start, from, journal, x) && journal <= later
    requires forall i :: |journal| <= i < |later| ==> CleanupStep(later[i], x.id) && OwnStep(later[i], x)
    ensures InCleanup(pool, start, from, later, x)
  {
    assert later[..|from|] == journal[..|from|];
    forall i | |from| <= i < |later|
      ensures OwnStep(later[i], x) && (i > |from| ==> CleanupStep(later[i], x.id))
    {
      if i < |journal| {
        assert later[i] == journal[i];
      }
    }
    assert later[|from|] == journal[|from|];
  }

  lemma OwnStepsOn(from: seq<Label>, journal: seq<Label>, later: seq<Label>, x: Instance)
    requires OwnSteps(from, journal, x) && OwnSteps(journal, later, x)
    ensures OwnSteps(from, later, x)
  {
    forall i | |from| <= i < |later|
      ensures OwnStep(later[i], x)
    {
      if i < |journal| {
        assert later[i] == journal[i];
      }
    }
  }

  /** The runner and the VM of a record in cleanup may be deleted, and on purpose. */
  lemma OwnDeletions(pool: Scaling, start: PoolState, from: seq<Label>, journal: seq<Label>, s0: PoolState,
                     s: PoolState, x: Instance, begun: Instance, noRunner: bool)
    requires Tearing(s0, s, x, begun, noRunner, false) && InCleanup(pool, start, from, journal, x)
    ensures Enabled(pool, s, DeleteVm(x.name)) && Justified(pool, start, journal, s, DeleteVm(x.name))
    ensures x.runner != 0 ==>
              Enabled(pool, s, DeleteRunner(x.runner)) && Justified(pool, start, journal, s, DeleteRunner(x.runner))
  {
    assert CleanupOpen(pool, start, journal, |from|, x.id);
  }

  // ---- what each call of a cleanup has done ----

  lemma RunnerTorn(s0: PoolState, s: PoolState, s': PoolState, x: Instance, begun: Instance, ok: bool)
    requires Tearing(s0, s, x, begun, false, false) && x.runner != 0
    requires S.Outcome(s, s.(w := Effected(s.w, DropRunner(x.runner))), ok, s')
    ensures Tearing(s0, s', x, begun, ok, false)
  {}

  lemma VmTorn(s0: PoolState, s: PoolState, s': PoolState, x: Instance, begun: Instance, ok: bool)
    requires Tearing(s0, s, x, begun, true, false)
    requires S.Outcome(s, s.(w := Effected(s.w, DropVm(x.name))), ok, s')
    ensures Tearing(s0, s', x, begun, true, ok)
  {}

  lemma FinishTorn(s0: PoolState, s: PoolState, s': PoolState, x: Instance, begun: Instance, ok: bool)
    requires Tearing(s0, s, x, begun, true, true) && s.w.records[x.id].id == x.id
    requires S.Outcome(s, S.Written(s, x.id, FinishCleanup), ok, s')
    ensures Spares(s0, s', x) && Leaving(begun, s'.w.records[x.id])
    ensures ok ==> s'.w.records[x.id].state == Finished && Gone(s'.w, x)
  {}

  /** The next attempt is counted, and comes no sooner than the backoff demands. */
  ghost predicate PutOff(x: Instance, y: Instance, since: Time) {
    y.state == Cleaning && y.retryCount == x.retryCount + 1 && y.retryAt >= since + Backoff.Delay(x.retryCount)
  }

  lemma RetryTorn(s0: PoolState, s: PoolState, s': PoolState, x: Instance, begun: Instance, cause: string, at: Time,
                  ok: bool)
    requires Tearing(s0, s, x, begun, false, false) && s.w.records[x.id].id == x.id
    requires S.Outcome(s, S.Written(s, x.id, Retry(cause, at)), ok, s')
    ensures Spares(s0, s', x) && Leaving(begun, s'.w.records[x.id])
    ensures var y := s'.w.records[x.id];
            y == s.w.records[x.id] || (y.state == Cleaning && y.retryCount == x.retryCount + 1 && y.retryAt == at)
    ensures ok ==> s'.w.records[x.id].retryCount == x.retryCount + 1 && s'.w.records[x.id].retryAt == at
  {
    MergeErrorKeeps(s.w.records[x.id].error, cause);
  }

  lemma BeginTorn(s: PoolState, s': PoolState, x: Instance, result: Result, reason: Reason, message: string, ok: bool)
    requires InPass(s) && Linked(s.w, x)
    requires S.Outcome(s, S.Written(s, x.id, BeginCleanup(result, reason, message)), ok, s')
    ensures Spares(s, s', x)
    ensures s'.w.records[x.id] == x || Leaving(Begun(x, result, reason, message), s'.w.records[x.id])
    ensures ok ==> Tearing(s, s', x, Begun(x, result, reason, message), x.runner == 0, false)
  {}

  lemma MarkSpares(s: PoolState, s': PoolState, x: Instance, call: Call, ok: bool)
    requires Linked(s.w, x) && (call == MarkReady || call == MarkRunning) && Change(x, call).Some?
    requires S.Outcome(s, S.Written(s, x.id, call), ok, s')
    ensures Spares(s, s', x)
    ensures ok ==> Marked(x, if call == MarkReady then Ready else Running, s'.w)
  {}

  // ---- observation ----

  function StatusOf(runners: map<int, RunnerStatus>, r: int): Option<RunnerStatus> {
    if r in runners then Some(runners[r]) else None
  }

  /** The cleanup of `x` is complete, with the outcome it was begun with. */
  ghost predicate Ended(x: Instance, result: Result, reason: Reason, message: string, w: World)
    requires x.state != Finished
  {
    && x.id in w.records && Leaving(Begun(x, result, reason, message), w.records[x.id])
    && w.records[x.id].state == Finished && Gone(w, x)
  }

  ghost predicate Marked(x: Instance, state: State, w: World) {
    x.id in w.records && w.records[x.id].state == state && w.records[x.id].runner == x.runner
  }

  /** What becomes of a record whose runner has the given status, or is gone. */
  ghost predicate Observed(x: Instance, seen: Option<RunnerStatus>, w: World)
    requires x.state != Finished
  {
    match seen
    case None => Ended(x, Succeeded, JobCompleted, "", w)
    case Some(status) =>
      match status
      case RunnerIdle =>
        if x.state == Running then Ended(x, Succeeded, JobCompleted, "", w)
        else Marked(x, Ready, w)
      case RunnerActive => Marked(x, Running, w)
      case RunnerIsOffline => Ended(x, Failed, RunnerOffline, "runner is offline", w)
      case RunnerUnknown => false
  }

  /** What has become of a record that the pass has dealt with without an error. */
  ghost predicate Handled(x: Instance, w: World, w': World, maxLifetime: Time)
    requires x.state != Finished
  {
    if x.state == Running && w.clock - x.stateChangedAt >= maxLifetime then Ended(x, Succeeded, MaxLifetime, "", w')
    else if x.state == Cleaning then
      if x.retryAt != 0 && w.clock < x.retryAt then x.id in w'.records && w'.records[x.id] == x
      else Ended(x, x.result, x.reason, x.error, w')
    else if x.state == Bootstrapping && x.runner == 0 then
      Ended(x, Failed, ControllerRecovery, "controller restarted during bootstrap", w')
    else Observed(x, StatusOf(w.runners, x.runner), w')
  }

  /** What a record has become stays so while others are dealt with. */
  lemma HandledStays(x: Instance, v: World, w: World, w': World, maxLifetime: Time)
    requires x.state != Finished && Handled(x, v, w, maxLifetime)
    requires x.id in w.records && x.id in w'.records && w'.records[x.id] == w.records[x.id] && S.Ages(w, w')
    ensures Handled(x, v, w', maxLifetime)
  {}

  // ---- lists read earlier in the pass ----

  /** The rest of a list read earlier in the pass is still what the store holds. */
  ghost predicate Unread(s: PoolState, list: seq<Instance>, k: nat) {
    && k <= |list|
    && (forall j :: k <= j < |list| ==>
          list[j].id in s.w.records && s.w.records[list[j].id] == list[j] && list[j].state != Finished)
    && (forall i, j :: 0 <= i < j < |list| ==> list[i].id != list[j].id)
  }

  lemma SparedUnread(s: PoolState, s': PoolState, list: seq<Instance>, k: nat)
    requires Unread(s, list, k) && k < |list| && Spares(s, s', list[k])
    ensures Unread(s', list, k + 1)
  {}
}
