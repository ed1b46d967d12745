/** What holds over whole runs of one pool: any journal of enabled steps, from any sound
    start, cut off anywhere. */
module Runs {
  import opened Arithmetic
  import opened Lifecycle
  import opened Records
  import opened InstanceStore
  import opened Scheduler
  import opened Stores
  import opened Protocol
  import P = Provision
  import B = Breaker
  import Backoff

  function Exec(pool: Scaling, start: PoolState, journal: seq<Label>): PoolState {
    if journal == [] then start
    else Do(pool, Exec(pool, start, journal[..|journal| - 1]), journal[|journal| - 1])
  }

  ghost predicate Legal(pool: Scaling, start: PoolState, journal: seq<Label>) {
    journal == [] ||
    (&& Legal(pool, start, journal[..|journal| - 1])
     && Enabled(pool, Exec(pool, start, journal[..|journal| - 1]), journal[|journal| - 1]))
  }

  /** A first start of the process on stores of which nothing is known but their own
      consistency. */
  ghost predicate Startable(pool: Scaling, w: World) {
    Sane(w) && w.clock > 0 && B.Sound(Limits(pool))
  }

  function Start(pool: Scaling, w: World, row: Option<RunRow>): PoolState {
    var vms := w.vms.Keys + w.pending.Keys;
    var ceilings := Ceilings(Max(pool.maxInstances, |vms|), Max(pool.maxInstances, |Active(w.records)|),
                             Max(pool.maxProvisioning, |Booting(w)|));
    PoolState(w, Idle, [], vms, B.CLOSED, 0, ceilings, Book(row, None, None, [], false))
  }

  lemma StartInv(pool: Scaling, w: World, row: Option<RunRow>)
    requires Startable(pool, w)
    ensures Inv(pool, Start(pool, w, row))
  {}

  lemma Extend(pool: Scaling, start: PoolState, journal: seq<Label>, l: Label)
    ensures Exec(pool, start, journal + [l]) == Do(pool, Exec(pool, start, journal), l)
    ensures Legal(pool, start, journal + [l]) <==>
              Legal(pool, start, journal) && Enabled(pool, Exec(pool, start, journal), l)
  {
    assert (journal + [l])[..|journal|] == journal;
  }

  lemma ExtendIfAny(pool: Scaling, start: PoolState, journal: seq<Label>, more: seq<Label>, end: PoolState)
    requires Legal(pool, start, journal) && |more| <= 1
    requires more == [] ==> end == Exec(pool, start, journal)
    requires more != [] ==>
               Enabled(pool, Exec(pool, start, journal), more[0]) &&
                 end == Do(pool, Exec(pool, start, journal), more[0])
    ensures Legal(pool, start, journal + more) && Exec(pool, start, journal + more) == end
  {
    if more == [] {
      assert journal + more == journal;
    } else {
      assert more == [more[0]];
      Extend(pool, start, journal, more[0]);
    }
  }

  lemma {:induction false} RunKeeps(pool: Scaling, start: PoolState, journal: seq<Label>)
    requires Inv(pool, start) && Legal(pool, start, journal)
    ensures Inv(pool, Exec(pool, start, journal))
  {
    if journal != [] {
      var init := journal[..|journal| - 1];
      RunKeeps(pool, start, init);
      StepKeeps(pool, Exec(pool, start, init), journal[|journal| - 1]);
    }
  }

  lemma {:induction false} PrefixLegal(pool: Scaling, start: PoolState, journal: seq<Label>, k: nat)
    requires Legal(pool, start, journal) && k <= |journal|
    ensures Legal(pool, start, journal[..k])
    decreases |journal|
  {
    if k < |journal| {
      PrefixLegal(pool, start, journal[..|journal| - 1], k);
      assert journal[..|journal| - 1][..k] == journal[..k];
    } else {
      assert journal[..k] == journal;
    }
  }

  /** The process can die between any two calls of a run. */
  lemma CrashAnywhere(pool: Scaling, start: PoolState, journal: seq<Label>, k: nat)
    requires Legal(pool, start, journal) && k <= |journal|
    ensures Legal(pool, start, journal[..k] + [Crash])
  {
    PrefixLegal(pool, start, journal, k);
    Extend(pool, start, journal[..k], Crash);
  }

  /** VMs that exist, with those Incus may still be creating, live records, and starts. */
  ghost predicate WithinLimits(s: PoolState) {
    && |s.w.vms| <= |s.w.vms.Keys + s.w.pending.Keys| <= s.ceilings.vms
    && |Active(s.w.records)| <= s.ceilings.records
    && |Booting(s.w)| <= s.ceilings.booting
  }

  lemma InvBounds(pool: Scaling, s: PoolState)
    requires Inv(pool, s)
    ensures WithinLimits(s)
  {
    Smaller(s.w.vms.Keys, s.w.vms.Keys + s.w.pending.Keys);
    Smaller(s.w.vms.Keys + s.w.pending.Keys, s.claims);
    assert |s.w.vms| == |s.w.vms.Keys|;
  }

  lemma CeilingsKept(pool: Scaling, s: PoolState, l: Label)
    ensures Do(pool, s, l).ceilings == s.ceilings
  {}

  lemma {:induction false} CeilingsFixed(pool: Scaling, start: PoolState, journal: seq<Label>)
    ensures Exec(pool, start, journal).ceilings == start.ceilings
  {
    if journal != [] {
      var init := journal[..|journal| - 1];
      CeilingsFixed(pool, start, init);
      CeilingsKept(pool, Exec(pool, start, init), journal[|journal| - 1]);
    }
  }

  /** The limits of a pool hold at every moment of every run. Where there is more than the
      limit to begin with, it never becomes more than that. */
  lemma PhysicalBound(pool: Scaling, w: World, row: Option<RunRow>, journal: seq<Label>, k: nat)
    requires Startable(pool, w) && Legal(pool, Start(pool, w, row), journal) && k <= |journal|
    ensures var now := Exec(pool, Start(pool, w, row), journal[..k]).w;
            && |now.vms| <= |now.vms.Keys + now.pending.Keys| <= Max(pool.maxInstances, |w.vms.Keys + w.pending.Keys|)
            && |Active(now.records)| <= Max(pool.maxInstances, |Active(w.records)|)
            && |InState(now.records, Bootstrapping)| <= Max(pool.maxProvisioning, |InState(w.records, Bootstrapping)|)
  {
    var start := Start(pool, w, row);
    StartInv(pool, w, row);
    PrefixLegal(pool, start, journal, k);
    RunKeeps(pool, start, journal[..k]);
    InvBounds(pool, Exec(pool, start, journal[..k]));
    CeilingsFixed(pool, start, journal[..k]);
  }

  /** At most `attemptLimit` starts since the last reset while the circuit is closed, and one
      more per full retry interval since it opened. A retry time is set only at the limit. */
  ghost predicate WithinRate(pool: Scaling, s: PoolState) {
    var h := s.bootstrap;
    && pool.retryInterval > 0
    && h.row.attempts <= pool.attemptLimit
    && (h.row.retryAt != 0 ==> h.row.attempts == pool.attemptLimit && h.openAt.Some?)
    && (h.openAt.None? ==> h.starts <= pool.attemptLimit)
    && (h.openAt.Some? ==>
          h.starts <= pool.attemptLimit + (s.w.clock - h.openAt.value) / pool.retryInterval)
  }

  lemma InvPaces(pool: Scaling, s: PoolState)
    requires Inv(pool, s)
    ensures WithinRate(pool, s)
  {
    B.RateLimit(s.bootstrap, Limits(pool), s.w.clock);
  }

  /** The starts in a journal since the circuit was last closed. */
  function StartsSince(journal: seq<Label>): nat {
    if journal == [] then 0
    else
      var last := journal[|journal| - 1];
      if last.Reset? && last.fate != FailsBefore then 0
      else StartsSince(journal[..|journal| - 1]) + if last.Spawn? then 1 else 0
  }

  lemma StepCounts(pool: Scaling, s: PoolState, l: Label)
    requires Enabled(pool, s, l)
    ensures Do(pool, s, l).bootstrap.starts ==
            if l.Reset? && l.fate != FailsBefore then 0 else s.bootstrap.starts + if l.Spawn? then 1 else 0
  {}

  lemma {:induction false} StartsCounted(pool: Scaling, start: PoolState, journal: seq<Label>)
    requires Legal(pool, start, journal) && start.bootstrap.starts == 0
    ensures Exec(pool, start, journal).bootstrap.starts == StartsSince(journal)
  {
    if journal != [] {
      var init := journal[..|journal| - 1];
      StartsCounted(pool, start, init);
      StepCounts(pool, Exec(pool, start, init), journal[|journal| - 1]);
    }
  }

  /** The rate limit on starts holds at every moment of every run, through failures, lost
      writes and crashes at any point of an attempt or of a probe. What is limited are the
      starts in the journal since the circuit was last closed. */
  lemma StartsArePaced(pool: Scaling, w: World, row: Option<RunRow>, journal: seq<Label>, k: nat)
    requires Startable(pool, w) && Legal(pool, Start(pool, w, row), journal) && k <= |journal|
    ensures var s := Exec(pool, Start(pool, w, row), journal[..k]);
            WithinRate(pool, s) && s.bootstrap.starts == StartsSince(journal[..k])
  {
    var start := Start(pool, w, row);
    StartInv(pool, w, row);
    PrefixLegal(pool, start, journal, k);
    RunKeeps(pool, start, journal[..k]);
    InvPaces(pool, Exec(pool, start, journal[..k]));
    StartsCounted(pool, start, journal[..k]);
  }

  /** Once a pass has swept, and until it starts goroutines, nothing is orphaned, whatever
      earlier passes and processes have left behind. Only then can it create VMs. */
  lemma SweptBeforeCreating(pool: Scaling, start: PoolState, journal: seq<Label>)
    requires Inv(pool, start) && Legal(pool, start, journal)
    requires Exec(pool, start, journal).phase == Maintaining
    ensures var now := Exec(pool, start, journal).w;
            && (forall n :: n in now.vms ==>
                  now.vms[n] in now.records && now.records[now.vms[n]].name == n &&
                    now.records[now.vms[n]].state != Finished)
            && (forall r :: r in now.runners ==>
                  exists id :: id in now.records && now.records[id].runner == r && now.records[id].state != Finished)
            && (forall id :: id in now.records && now.records[id].state == Finished ==>
                  now.records[id].name !in now.vms && now.records[id].runner !in now.runners)
  {
    RunKeeps(pool, start, journal);
    SweptMeans(Exec(pool, start, journal).w);
  }

  // ---- guards ----

  function Refusals(journal: seq<Label>): nat {
    if journal == [] then 0
    else Refusals(journal[..|journal| - 1]) + if journal[|journal| - 1].RefusedCall? then 1 else 0
  }

  /** No goroutine ever makes a call that a guard of the store refuses. The calls of the pass
      itself are accounted for by their own label, which the controller never writes. */
  lemma {:induction false} GoroutinesNeverRefused(pool: Scaling, start: PoolState, journal: seq<Label>)
    requires Inv(pool, start) && Legal(pool, start, journal)
    ensures Exec(pool, start, journal).refused == start.refused + Refusals(journal)
  {
    if journal != [] {
      var init, last := journal[..|journal| - 1], journal[|journal| - 1];
      RunKeeps(pool, start, init);
      GoroutinesNeverRefused(pool, start, init);
      if last.Proceed? {
        ProceedKeeps(pool, Exec(pool, start, init), last.k, last.choice);
      } else {
        RefusedElsewhere(pool, Exec(pool, start, init), last);
      }
    }
  }

  lemma {:induction false} PrefixRefusals(journal: seq<Label>, k: nat)
    requires k <= |journal|
    ensures Refusals(journal[..k]) <= Refusals(journal)
  {
    if k < |journal| {
      PrefixRefusals(journal[..|journal| - 1], k);
      assert journal[..|journal| - 1][..k] == journal[..k];
    } else {
      assert journal[..k] == journal;
    }
  }

  /** If nothing has been refused by the end of a run, nothing was at any moment of it. */
  lemma NeverRefusedBefore(pool: Scaling, start: PoolState, journal: seq<Label>, k: nat)
    requires Inv(pool, start) && Legal(pool, start, journal) && k <= |journal|
    requires Exec(pool, start, journal).refused == start.refused
    ensures Exec(pool, start, journal[..k]).refused == start.refused
  {
    PrefixLegal(pool, start, journal, k);
    PrefixRefusals(journal, k);
    GoroutinesNeverRefused(pool, start, journal);
    GoroutinesNeverRefused(pool, start, journal[..k]);
  }

  lemma RefusedElsewhere(pool: Scaling, s: PoolState, l: Label)
    requires !l.Proceed?
    ensures Do(pool, s, l).refused == s.refused + if l.RefusedCall? then 1 else 0
  {}

  lemma VmsElsewhere(pool: Scaling, s: PoolState, l: Label)
    requires !l.Proceed? && !l.DeleteVm? && !l.Outside?
    ensures s.w.vms.Keys <= Do(pool, s, l).w.vms.Keys
  {}

  lemma RecordsElsewhere(pool: Scaling, s: PoolState, l: Label, id: string)
    requires !l.Proceed? && !l.StoreCall? && id in s.w.records
    requires l.Spawn? ==> Enabled(pool, s, l)
    ensures id in Do(pool, s, l).w.records && Do(pool, s, l).w.records[id] == s.w.records[id]
  {}

  // ---- deletions ----

  /** The goroutine that is compensating the failed start of this very instance. */
  ghost predicate FailingItself(s: PoolState, l: Label, id: string) {
    l.Proceed? && l.k < |s.workers| && s.workers[l.k].id == id && s.workers[l.k].pc.Fail?
  }

  lemma PassDrops(pool: Scaling, s: PoolState, l: Label, name: string)
    requires Enabled(pool, s, l) && !l.Proceed? && !l.Outside?
    requires name in s.w.vms && name !in Do(pool, s, l).w.vms
    ensures l == DeleteVm(name) && MayDeleteVm(s.w, name)
  {
    if l.DeleteVm? {
      assert name == l.name;
    } else {
      VmsElsewhere(pool, s, l);
    }
  }

  /** A VM disappears only by itself, or as an orphan, or while its own record is in cleanup,
      or by the compensation of its own failed start. */
  lemma LiveVmKept(pool: Scaling, s: PoolState, l: Label, name: string)
    requires Inv(pool, s) && Enabled(pool, s, l)
    requires name in s.w.vms && name !in Do(pool, s, l).w.vms
    ensures l.Outside? || name !in s.w.names ||
            s.w.records[s.w.names[name]].state == Cleaning ||
            s.w.records[s.w.names[name]].state == Finished ||
            FailingItself(s, l, s.w.names[name])
  {
    if l.Proceed? {
      GoroutineDrops(s, l.k, l.choice, name);
    } else if !l.Outside? {
      PassDrops(pool, s, l, name);
    }
  }

  lemma GoroutineDrops(s: PoolState, k: nat, choice: P.Choice, name: string)
    requires Sane(s.w) && k < |s.workers| && P.Follows(s.w, s.workers[k]) && P.Fits(s.w, s.workers[k], choice)
    requires name in s.w.vms && name !in Effected(s.w, P.Step(s.w, s.workers[k], choice).effect).vms
    ensures name in s.w.names && s.w.names[name] == s.workers[k].id
    ensures s.workers[k].pc.Fail? || s.w.records[s.workers[k].id].state == Cleaning
  {
    var me, e := s.workers[k], P.Step(s.w, s.workers[k], choice).effect;
    P.StepSafe(s.w, me, choice);
    OnlyCompensationDrops(s.w, me, choice);
    assert P.Own(s.w, me, e);
    OnlyDropsRemove(s.w, e, name);
  }

  lemma OnlyDropsRemove(w: World, e: Effect, name: string)
    requires name in w.vms && name !in Effected(w, e).vms
    ensures e == DropVm(name)
  {}

  lemma OnlyCompensationDrops(w: World, k: P.Worker, ch: P.Choice)
    requires P.Follows(w, k)
    ensures P.Step(w, k, ch).effect.DropVm? ==> k.pc.Fail? || w.records[k.id].state == Cleaning
  {}

  // ---- deletions by the pass ----

  /** The pass may take up the cleanup of the record: a retry, if one is set, is due. */
  predicate Due(w: World, id: string) {
    id in w.records &&
    (w.records[id].state != Cleaning || w.records[id].retryAt == 0 || w.records[id].retryAt <= w.clock)
  }

  /** Due in the state a journal leads to. Here and below a quantifier over the one journal
      there is keeps the verifier from looking into the run unless a proof mentions it. */
  ghost predicate DueAt(pool: Scaling, start: PoolState, journal: seq<Label>, id: string) {
    forall h :: h == journal ==> Due(Exec(pool, start, h).w, id)
  }

  /** What happens between the beginning of a cleanup by the pass and its last deletion. */
  predicate CleanupStep(l: Label, id: string) {
    l.Outside? || l.DeleteRunner? || (l.StoreCall? && l.id == id && l.call.SetStage?)
  }

  /** Step `j` of the journal began a cleanup of the record when it was due, and nothing but
      that cleanup has gone on since. */
  ghost predicate CleanupOpen(pool: Scaling, start: PoolState, journal: seq<Label>, j: nat, id: string) {
    && j < |journal| && journal[j].StoreCall? && journal[j].id == id && journal[j].call.BeginCleanup?
    && DueAt(pool, start, journal[..j], id)
    && forall i :: j < i < |journal| ==> CleanupStep(journal[i], id)
  }

  ghost predicate OrphanName(w: World, name: string) {
    forall id :: Live(w, id) ==> w.records[id].name != name
  }

  ghost predicate OrphanRunnerId(w: World, r: int) {
    forall id :: Live(w, id) ==> w.records[id].runner != r
  }

  /** A deletion is of an orphan, or belongs to the cleanup of its own record under way. */
  ghost predicate Justified(pool: Scaling, start: PoolState, journal: seq<Label>, s: PoolState, l: Label) {
    match l
    case DeleteVm(name) =>
      OrphanName(s.w, name) ||
      exists j: nat, id: string ::
        CleanupOpen(pool, start, journal, j, id) && id in s.w.records && s.w.records[id].name == name
    case DeleteRunner(r) =>
      OrphanRunnerId(s.w, r) ||
      exists j: nat, id: string ::
        CleanupOpen(pool, start, journal, j, id) && id in s.w.records && s.w.records[id].runner == r
    case _ => true
  }

  ghost predicate Deliberate(pool: Scaling, start: PoolState, journal: seq<Label>) {
    forall k :: 0 <= k < |journal| ==> JustifiedAt(pool, start, journal, k)
  }

  ghost predicate JustifiedAt(pool: Scaling, start: PoolState, journal: seq<Label>, k: nat)
    requires k < |journal|
  {
    Justified(pool, start, journal[..k], Exec(pool, start, journal[..k]), journal[k])
  }

  lemma DeliberateExtend(pool: Scaling, start: PoolState, journal: seq<Label>, l: Label)
    requires Deliberate(pool, start, journal) && Justified(pool, start, journal, Exec(pool, start, journal), l)
    ensures Deliberate(pool, start, journal + [l])
  {
    var next := journal + [l];
    forall k | 0 <= k < |next|
      ensures JustifiedAt(pool, start, next, k)
    {
      assert next[..k] == journal[..k];
      if k < |journal| {
        assert JustifiedAt(pool, start, journal, k);
      } else {
        assert journal[..k] == journal;
      }
    }
  }

  lemma DeliberatePrefix(pool: Scaling, start: PoolState, journal: seq<Label>, m: nat)
    requires Deliberate(pool, start, journal) && m <= |journal|
    ensures Deliberate(pool, start, journal[..m])
  {
    forall k | 0 <= k < m
      ensures JustifiedAt(pool, start, journal[..m], k)
    {
      assert journal[..m][..k] == journal[..k];
      assert JustifiedAt(pool, start, journal, k);
    }
  }

  /** During a cleanup its retry time does not move. */
  lemma RetryTimeKept(pool: Scaling, s: PoolState, l: Label, id: string)
    requires id in s.w.records && s.w.records[id].id == id
    requires CleanupStep(l, id) && (l.Outside? ==> Enabled(pool, s, l))
    ensures var w' := Do(pool, s, l).w;
            && id in w'.records && w'.records[id].id == id && w'.records[id].retryAt == s.w.records[id].retryAt
            && s.w.clock <= w'.clock
  {
    if l.StoreCall? {
      AcceptedStores(s.w.records[id], l.call);
      hide Change, MergeError, Enabled;
    }
  }

  lemma BeginKeepsRetryTime(pool: Scaling, s: PoolState, id: string, call: Call)
    requires id in s.w.records && s.w.records[id].id == id && call.BeginCleanup?
    ensures var w' := Do(pool, s, StoreCall(id, call)).w;
            && id in w'.records && w'.records[id].id == id && w'.records[id].retryAt == s.w.records[id].retryAt
            && s.w.clock <= w'.clock
  {
    BeginningKeepsRetryTime(s.w.records[id], call);
  }

  lemma BeginningKeepsRetryTime(x: Instance, call: Call)
    requires call.BeginCleanup?
    ensures Change(x, call).Some? ==> Change(x, call).value.retryAt == x.retryAt && Change(x, call).value.id == x.id
  {}

  /** The retry time of the record is what it was, and no time has been lost. */
  ghost predicate SameRetry(x: World, w: World, id: string) {
    && id in x.records && id in w.records && w.records[id].id == id
    && w.records[id].retryAt == x.records[id].retryAt && x.clock <= w.clock
  }

  lemma SameRetryStep(pool: Scaling, x: World, s: PoolState, l: Label, id: string)
    requires SameRetry(x, s.w, id) && CleanupStep(l, id) && (l.Outside? ==> Enabled(pool, s, l))
    ensures SameRetry(x, Do(pool, s, l).w, id)
  {
    RetryTimeKept(pool, s, l, id);
  }

  lemma CleanupOpenBefore(pool: Scaling, start: PoolState, journal: seq<Label>, j: nat, id: string)
    requires CleanupOpen(pool, start, journal, j, id) && j < |journal| - 1
    ensures var init := journal[..|journal| - 1];
            init[..j] == journal[..j] && CleanupOpen(pool, start, init, j, id) &&
              CleanupStep(journal[|journal| - 1], id)
  {
    var init := journal[..|journal| - 1];
    assert init[..j] == journal[..j];
    assert forall m :: j < m < |init| ==> init[m] == journal[m];
  }

  lemma {:induction false} RetryTimeSince(pool: Scaling, start: PoolState, journal: seq<Label>, j: nat, id: string)
    requires Inv(pool, start) && Legal(pool, start, journal) && CleanupOpen(pool, start, journal, j, id)
    ensures SameRetry(Exec(pool, start, journal[..j]).w, Exec(pool, start, journal).w, id)
    decreases |journal|
  {
    var init, last := journal[..|journal| - 1], journal[|journal| - 1];
    if j == |journal| - 1 {
      RunKeeps(pool, start, init);
      BeginKeepsRetryTime(pool, Exec(pool, start, init), id, last.call);
    } else {
      CleanupOpenBefore(pool, start, journal, j, id);
      RetryTimeSince(pool, start, init, j, id);
      SameRetryStep(pool, Exec(pool, start, journal[..j]).w, Exec(pool, start, init), last, id);
    }
  }

  /** The label deletes the VM or the runner of the record. */
  predicate DeletesFor(x: Instance, l: Label) {
    l == DeleteVm(x.name) || (x.runner != 0 && l == DeleteRunner(x.runner))
  }

  /** What is deleted for a live record is deleted in that record's own cleanup. */
  lemma OwnCleanup(pool: Scaling, start: PoolState, journal: seq<Label>, s: PoolState, l: Label, id: string)
    returns (j: nat)
    requires Sane(s.w) && Live(s.w, id) && DeletesFor(s.w.records[id], l) && Justified(pool, start, journal, s, l)
    ensures CleanupOpen(pool, start, journal, j, id)
  {
    var other: string;
    if l.DeleteVm? {
      j, other :| CleanupOpen(pool, start, journal, j, other) && other in s.w.records &&
        s.w.records[other].name == l.name;
    } else {
      j, other :| CleanupOpen(pool, start, journal, j, other) && other in s.w.records &&
        s.w.records[other].runner == l.runner;
    }
    assert s.w.names[s.w.records[id].name] == id;
  }

  ghost predicate NotEarly(pool: Scaling, start: PoolState, journal: seq<Label>, j: nat, id: string)
    requires j <= |journal|
  {
    var began, now := Exec(pool, start, journal[..j]).w, Exec(pool, start, journal).w;
    id in began.records && id in now.records &&
    (began.records[id].state == Cleaning ==> now.records[id].retryAt == 0 || now.records[id].retryAt <= now.clock)
  }

  lemma OpenNotEarly(pool: Scaling, start: PoolState, journal: seq<Label>, j: nat, id: string)
    requires Inv(pool, start) && Legal(pool, start, journal) && CleanupOpen(pool, start, journal, j, id)
    ensures NotEarly(pool, start, journal, j, id)
  {
    RetryTimeSince(pool, start, journal, j, id);
    assert Due(Exec(pool, start, journal[..j]).w, id);
  }

  /** No deletion for a live record that was in cleanup before falls before its retry time.
      A record that was not is cleaned up at once, whatever retry time `fail` has left on it. */
  lemma NoEarlyDeletion(pool: Scaling, start: PoolState, journal: seq<Label>, k: nat, id: string) returns (j: nat)
    requires Inv(pool, start) && Legal(pool, start, journal) && Deliberate(pool, start, journal) && k < |journal|
    requires Live(Exec(pool, start, journal[..k]).w, id)
    requires DeletesFor(Exec(pool, start, journal[..k]).w.records[id], journal[k])
    ensures j < k && CleanupOpen(pool, start, journal[..k], j, id) && NotEarly(pool, start, journal[..k], j, id)
  {
    assert JustifiedAt(pool, start, journal, k);
    PrefixLegal(pool, start, journal, k);
    RunKeeps(pool, start, journal[..k]);
    j := OwnCleanup(pool, start, journal[..k], Exec(pool, start, journal[..k]), journal[k], id);
    OpenNotEarly(pool, start, journal[..k], j, id);
  }

  /** `s` is reached by a run whose deletions are all deliberate. */
  ghost predicate Reached(pool: Scaling, start: PoolState, journal: seq<Label>, s: PoolState) {
    forall j :: j == journal ==>
      Legal(pool, start, j) && Inv(pool, start) && s == Exec(pool, start, j) && Deliberate(pool, start, j)
  }

  lemma ReachedMeans(pool: Scaling, start: PoolState, journal: seq<Label>, s: PoolState)
    ensures Reached(pool, start, journal, s) <==>
              Inv(pool, start) && Legal(pool, start, journal) && s == Exec(pool, start, journal) &&
              Deliberate(pool, start, journal)
  {
    if Reached(pool, start, journal, s) {
      assert Legal(pool, start, journal);
    }
  }

  lemma ReachedInv(pool: Scaling, start: PoolState, journal: seq<Label>, s: PoolState)
    requires Reached(pool, start, journal, s)
    ensures Inv(pool, s)
  {
    ReachedMeans(pool, start, journal, s);
    RunKeeps(pool, start, journal);
  }

  /** The state a journal has led to at some moment. */
  ghost predicate Was(pool: Scaling, start: PoolState, journal: seq<Label>, s: PoolState) {
    forall h :: h == journal ==> s == Exec(pool, start, h)
  }

  lemma WasNow(pool: Scaling, start: PoolState, journal: seq<Label>, s: PoolState)
    requires Reached(pool, start, journal, s)
    ensures Was(pool, start, journal, s)
  {
    ReachedMeans(pool, start, journal, s);
  }

  lemma WasOne(pool: Scaling, start: PoolState, journal: seq<Label>, s: PoolState)
    ensures Was(pool, start, journal, s) <==> s == Exec(pool, start, journal)
  {
    if Was(pool, start, journal, s) {
      assert Exec(pool, start, journal) == Exec(pool, start, journal);
    }
  }

  lemma ReachedExtend(pool: Scaling, start: PoolState, journal: seq<Label>, s: PoolState, l: Label)
    requires Reached(pool, start, journal, s) && Enabled(pool, s, l) && Justified(pool, start, journal, s, l)
    ensures Reached(pool, start, journal + [l], Do(pool, s, l))
  {
    ReachedMeans(pool, start, journal, s);
    Extend(pool, start, journal, l);
    DeliberateExtend(pool, start, journal, l);
    ReachedMeans(pool, start, journal + [l], Do(pool, s, l));
  }

  // ---- the outcome of a cleanup ----

  /** `later` is the same cleanup further on: same result and reason, no error text lost. */
  ghost predicate SameOutcome(before: Instance, later: Instance) {
    && (later.state == Cleaning || later.state == Finished)
    && (before.result != NoResult ==> later.result == before.result)
    && (before.reason != NoReason ==> later.reason == before.reason)
    && before.error <= later.error
  }

  ghost predicate Ending(w: World, id: string) {
    id in w.records && (w.records[id].state == Cleaning || w.records[id].state == Finished)
  }

  lemma StoreCallOutcome(w: World, id: string, call: Call, other: string)
    requires MayCall(w, id, call)
    requires Ending(w, other)
    ensures var w' := Effected(w, Write(Stamp(w.records[id], Change(w.records[id], call).value, w.clock)));
            w.records[id].id == id ==> SameOutcome(w.records[other], w'.records[other])
  {
    if other == id {
      CleanupOutcomeFixed(w.records[id], call);
      ChangeFollowsLifecycle(w.records[id], call);
    }
  }

  lemma GoroutineOutcome(w: World, k: P.Worker, ch: P.Choice, id: string)
    requires P.Follows(w, k) && Sane(w) && Ending(w, id)
    requires P.Own(w, k, P.Step(w, k, ch).effect) && !P.Step(w, k, ch).effect.Insert?
    ensures var w' := Effected(w, P.Step(w, k, ch).effect);
            id in w'.records && SameOutcome(w.records[id], w'.records[id])
  {
    var e := P.Step(w, k, ch).effect;
    if e.Write? && k.id == id {
      GoroutineWrites(w, k, ch);
    }
  }

  /** A goroutine's write on a record in Cleaning is a store call that keeps the outcome. */
  lemma GoroutineWrites(w: World, k: P.Worker, ch: P.Choice)
    requires P.Follows(w, k) && P.Step(w, k, ch).effect.Write?
    requires w.records[k.id].state == Cleaning || w.records[k.id].state == Finished
    ensures SameOutcome(w.records[k.id], P.Step(w, k, ch).effect.row)
  {
    var before := w.records[k.id];
    if k.pc.Fail? {
      var at := w.clock + Backoff.RETRY_BASE;
      CleanupOutcomeFixed(before, if k.pc.errors then Retry(ch.message, at) else FinishCleanup);
    } else if k.pc.Clean? {
      CleanupWrites(w, k, ch);
    }
  }

  lemma CleanupWrites(w: World, k: P.Worker, ch: P.Choice)
    requires P.Follows(w, k) && P.Step(w, k, ch).effect.Write? && k.pc.Clean?
    requires w.records[k.id].state == Cleaning || w.records[k.id].state == Finished
    ensures SameOutcome(w.records[k.id], P.Step(w, k, ch).effect.row)
  {
    var before := w.records[k.id];
    CleanupOutcomeFixed(before, SetStage(StageDeleteInstance));
    CleanupOutcomeFixed(before, FinishCleanup);
    CleanupOutcomeFixed(before, Retry(ch.message, w.clock + Backoff.RETRY_BASE));
  }

  lemma ProceedOutcome(pool: Scaling, s: PoolState, k: nat, choice: P.Choice, id: string)
    requires Inv(pool, s) && Enabled(pool, s, Proceed(k, choice)) && Ending(s.w, id)
    ensures var w' := Do(pool, s, Proceed(k, choice)).w; Ending(w', id) && SameOutcome(s.w.records[id], w'.records[id])
  {
    P.StepSafe(s.w, s.workers[k], choice);
    GoroutineOutcome(s.w, s.workers[k], choice, id);
  }

  lemma StepOutcome(pool: Scaling, s: PoolState, l: Label, id: string)
    requires Inv(pool, s) && Enabled(pool, s, l) && Ending(s.w, id)
    ensures var w' := Do(pool, s, l).w; Ending(w', id) && SameOutcome(s.w.records[id], w'.records[id])
  {
    if l.StoreCall? {
      StoreCallOutcome(s.w, l.id, l.call, id);
    } else if l.Proceed? {
      ProceedOutcome(pool, s, l.k, l.choice, id);
    } else {
      RecordsElsewhere(pool, s, l, id);
    }
  }

  /** Whatever happens after the first committed BeginCleanup, however often cleanup is
      interrupted and started again. */
  lemma {:induction false} OutcomeFixed(pool: Scaling, start: PoolState, journal: seq<Label>, id: string)
    requires Inv(pool, start) && Legal(pool, start, journal)
    requires Ending(start.w, id)
    ensures var s := Exec(pool, start, journal);
            Ending(s.w, id) && SameOutcome(start.w.records[id], s.w.records[id])
  {
    if journal != [] {
      var init, last := journal[..|journal| - 1], journal[|journal| - 1];
      OutcomeFixed(pool, start, init, id);
      RunKeeps(pool, start, init);
      StepOutcome(pool, Exec(pool, start, init), last, id);
    }
  }

  // ---- records in use ----

  ghost predicate InUse(w: World, id: string) {
    id in w.records && (w.records[id].state == Ready || w.records[id].state == Running)
  }

  /** In use with a runner that was registered under the record's own name. */
  ghost predicate Manned(w: World, id: string)
    requires id in w.records
  {
    var x := w.records[id];
    x.runner != 0 && x.runner in w.issued && w.issued[x.runner] == x.name
  }

  lemma SaneManned(w: World, id: string)
    requires Sane(w) && id in w.records && w.records[id].runner != 0
    ensures Manned(w, id)
  {}

  /** A step that puts a record to use finds its runner there. */
  lemma StepMans(pool: Scaling, s: PoolState, l: Label, id: string)
    requires Inv(pool, s) && Enabled(pool, s, l) && InUse(Do(pool, s, l).w, id)
    ensures Do(pool, s, l).w.records[id].runner != 0 ||
            (InUse(s.w, id) && s.w.records[id].runner == 0)
  {
    if l.StoreCall? {
      StoreCallMans(s.w, l.id, l.call, id);
    } else if l.Proceed? {
      ProceedMans(pool, s, l.k, l.choice, id);
    } else if id in s.w.records {
      RecordsElsewhere(pool, s, l, id);
    } else {
      NewNotInUse(pool, s, l, id);
    }
  }

  lemma StoreCallMans(w: World, id: string, call: Call, other: string)
    requires Sane(w) && MayCall(w, id, call)
    requires InUse(Effected(w, Write(Stamp(w.records[id], Change(w.records[id], call).value, w.clock))), other)
    ensures var w' := Effected(w, Write(Stamp(w.records[id], Change(w.records[id], call).value, w.clock)));
            w'.records[other].runner != 0 || (InUse(w, other) && w.records[other].runner == 0)
  {
    ChangeFollowsLifecycle(w.records[id], call);
  }

  lemma ProceedMans(pool: Scaling, s: PoolState, k: nat, choice: P.Choice, id: string)
    requires Inv(pool, s) && Enabled(pool, s, Proceed(k, choice)) && InUse(Do(pool, s, Proceed(k, choice)).w, id)
    ensures Do(pool, s, Proceed(k, choice)).w.records[id].runner != 0 ||
            (InUse(s.w, id) && s.w.records[id].runner == 0)
  {
    hide P.Step, P.Follows, P.Fits, Sane, Effected, Possible;
    var me, e := s.workers[k], P.Step(s.w, s.workers[k], choice).effect;
    P.StepSafe(s.w, me, choice);
    ProceedDone(pool, s, k, choice);
    hide Inv, Enabled, Do;
    OnlyOwnRow(s.w, me, e, id);
    if e.Write? && e.row.id == id {
      GoroutineMans(s.w, me, choice);
    }
  }

  lemma OnlyOwnRow(w: World, k: P.Worker, e: Effect, id: string)
    requires P.Own(w, k, e)
    ensures e.Write? && e.row.id == id ==> id in Effected(w, e).records && Effected(w, e).records[id] == e.row
    ensures !(e.Write? && e.row.id == id) && id in Effected(w, e).records ==>
              id in w.records && Effected(w, e).records[id] == w.records[id]
  {}

  lemma GoroutineMans(w: World, k: P.Worker, ch: P.Choice)
    requires P.Follows(w, k) && P.Step(w, k, ch).effect.Write?
    requires P.Step(w, k, ch).effect.row.state == Ready || P.Step(w, k, ch).effect.row.state == Running
    ensures k.id in w.records
    ensures P.Step(w, k, ch).effect.row.runner != 0 ||
            (w.records[k.id].state == P.Step(w, k, ch).effect.row.state && w.records[k.id].runner == 0)
  {}

  lemma NewNotInUse(pool: Scaling, s: PoolState, l: Label, id: string)
    requires Enabled(pool, s, l) && !l.StoreCall? && !l.Proceed? && id !in s.w.records
    ensures !InUse(Do(pool, s, l).w, id)
  {}

  /** Whenever a record is Ready or Running, its runner is one that was registered under its
      name, unless it was in use without one when the run began. */
  lemma {:induction false} InUseIsManned(pool: Scaling, start: PoolState, journal: seq<Label>, id: string)
    requires Inv(pool, start) && Legal(pool, start, journal) && InUse(Exec(pool, start, journal).w, id)
    ensures Manned(Exec(pool, start, journal).w, id) || (InUse(start.w, id) && start.w.records[id].runner == 0)
  {
    RunKeeps(pool, start, journal);
    if journal != [] {
      var init, last := journal[..|journal| - 1], journal[|journal| - 1];
      RunKeeps(pool, start, init);
      StepMans(pool, Exec(pool, start, init), last, id);
      if InUse(Exec(pool, start, init).w, id) {
        InUseIsManned(pool, start, init, id);
      }
    }
    if Exec(pool, start, journal).w.records[id].runner != 0 {
      SaneManned(Exec(pool, start, journal).w, id);
    }
  }
}
