/** What the successes of a pass rest on, while its goroutines interleave with each other and
    with whatever happens outside. */
module Attempts {
  import opened Lifecycle
  import opened Records
  import opened InstanceStore
  import opened Stores
  import opened Protocol
  import opened Runs
  import P = Provision

  /** Step `i` was the look of goroutine `k` at its runner, which had this status or was gone. */
  ghost predicate Looked(pool: Scaling, start: PoolState, journal: seq<Label>, i: nat, k: nat,
                         status: Option<RunnerStatus>) {
    && i < |journal| && journal[i].Proceed? && journal[i].k == k
    && var s := Exec(pool, start, journal[..i]);
       && k < |s.workers| && s.workers[k].pc.Boot? && s.workers[k].pc.boot == P.ToAwait
       && P.Sees(s.w, s.workers[k], None) == Some(status)
  }

  /** The pass of step `i` is still going on. */
  ghost predicate SamePass(journal: seq<Label>, i: nat) {
    forall j :: i < j < |journal| ==> !journal[j].EndPass? && !journal[j].Crash?
  }

  /** The record of goroutine `k` is as its call and its look demand. */
  ghost predicate Adopted(pool: Scaling, start: PoolState, journal: seq<Label>, s: PoolState, k: nat) {
    && k < |s.workers| && s.workers[k].id in s.w.records
    && var x, pc := s.w.records[s.workers[k].id], s.workers[k].pc;
       P.Adopts(x, pc, None) ||
       exists i: nat, status: Option<RunnerStatus> ::
         Looked(pool, start, journal, i, k, status) && SamePass(journal, i) && P.Adopts(x, pc, Some(status))
  }

  lemma LookedStill(pool: Scaling, start: PoolState, journal: seq<Label>, l: Label, i: nat, k: nat,
                    status: Option<RunnerStatus>)
    requires Looked(pool, start, journal, i, k, status) && SamePass(journal, i) && !l.EndPass? && !l.Crash?
    ensures Looked(pool, start, journal + [l], i, k, status) && SamePass(journal + [l], i)
  {
    assert (journal + [l])[..i] == journal[..i];
  }

  /** Nothing has happened to goroutine `k` and its record. */
  lemma AdoptedStill(pool: Scaling, start: PoolState, journal: seq<Label>, s: PoolState, l: Label,
                     s': PoolState, k: nat)
    requires Adopted(pool, start, journal, s, k) && !l.EndPass? && !l.Crash?
    requires k < |s'.workers| && s'.workers[k] == s.workers[k]
    requires s.workers[k].id in s'.w.records && s'.w.records[s.workers[k].id] == s.w.records[s.workers[k].id]
    ensures Adopted(pool, start, journal + [l], s', k)
  {
    var x, pc := s.w.records[s.workers[k].id], s.workers[k].pc;
    if !P.Adopts(x, pc, None) {
      var i: nat, status: Option<RunnerStatus> :|
        Looked(pool, start, journal, i, k, status) && SamePass(journal, i) && P.Adopts(x, pc, Some(status));
      LookedStill(pool, start, journal, l, i, k, status);
    }
  }

  /** Goroutine `k` has made its call. */
  lemma AdoptedNext(pool: Scaling, start: PoolState, journal: seq<Label>, s: PoolState, k: nat, choice: P.Choice)
    requires s == Exec(pool, start, journal) && Adopted(pool, start, journal, s, k)
    requires P.Follows(s.w, s.workers[k]) && P.Fits(s.w, s.workers[k], choice)
    ensures Adopted(pool, start, journal + [Proceed(k, choice)], Do(pool, s, Proceed(k, choice)), k)
  {
    var me, l := s.workers[k], Proceed(k, choice);
    var seen := SeenBefore(pool, start, journal, s, k);
    P.TurnAdopts(s.w, me, choice, seen);
    ProceedDone(pool, s, k, choice);
    var s' := Do(pool, s, l);
    hide P.Follows, P.Fits, P.Adopts, P.Step, Effected, Do;
    if me.pc.Boot? && me.pc.boot == P.ToAwait {
      var status := P.Sees(s.w, me, None).value;
      assert (journal + [l])[..|journal|] == journal;
      assert Looked(pool, start, journal + [l], |journal|, k, status) && SamePass(journal + [l], |journal|);
    } else if seen.Some? {
      var i: nat :| Looked(pool, start, journal, i, k, seen.value) && SamePass(journal, i);
      LookedStill(pool, start, journal, l, i, k, seen.value);
    }
  }

  lemma SeenBefore(pool: Scaling, start: PoolState, journal: seq<Label>, s: PoolState, k: nat)
    returns (seen: Option<Option<RunnerStatus>>)
    requires Adopted(pool, start, journal, s, k)
    ensures P.Adopts(s.w.records[s.workers[k].id], s.workers[k].pc, seen)
    ensures seen.Some? ==>
              exists i: nat :: Looked(pool, start, journal, i, k, seen.value) && SamePass(journal, i)
  {
    var x, pc := s.w.records[s.workers[k].id], s.workers[k].pc;
    if P.Adopts(x, pc, None) {
      seen := None;
    } else {
      var i: nat, status: Option<RunnerStatus> :|
        Looked(pool, start, journal, i, k, status) && SamePass(journal, i) && P.Adopts(x, pc, Some(status));
      seen := Some(status);
    }
  }

  /** Another goroutine has made a call. */
  lemma OtherProceeds(pool: Scaling, s: PoolState, j: nat, choice: P.Choice, k: nat)
    requires Inv(pool, s) && Enabled(pool, s, Proceed(j, choice)) && k < |s.workers| && k != j
    ensures var s' := Do(pool, s, Proceed(j, choice));
            && k < |s'.workers| && s'.workers[k] == s.workers[k] && s.workers[k].id in s.w.records
            && s.workers[k].id in s'.w.records && s'.w.records[s.workers[k].id] == s.w.records[s.workers[k].id]
  {
    P.StepSafe(s.w, s.workers[j], choice);
    ProceedDone(pool, s, j, choice);
    assert P.Follows(s.w, s.workers[k]) && s.workers[k].id != s.workers[j].id;
    var e := P.Step(s.w, s.workers[j], choice).effect;
    assert P.Own(s.w, s.workers[j], e);
    hide Inv, Enabled, Do, P.Step, P.Fits, Sane, Possible;
    OwnRowOnly(s.w, s.workers[j], e, s.workers[k].id);
  }

  lemma OwnRowOnly(w: World, k: P.Worker, e: Effect, id: string)
    requires P.Own(w, k, e) && id != k.id && id in w.records
    ensures id in Effected(w, e).records && Effected(w, e).records[id] == w.records[id]
  {}

  /** A step that is no call of a goroutine and does not end the pass. */
  lemma WorkersElsewhere(pool: Scaling, s: PoolState, l: Label, k: nat)
    requires Inv(pool, s) && Enabled(pool, s, l) && !l.Proceed? && !l.EndPass? && !l.Crash?
    requires k < |Do(pool, s, l).workers|
    ensures var s' := Do(pool, s, l);
            if k < |s.workers| then
              && s'.workers[k] == s.workers[k] && s.workers[k].id in s.w.records
              && s.workers[k].id in s'.w.records && s'.w.records[s.workers[k].id] == s.w.records[s.workers[k].id]
            else
              && s'.workers[k].pc == P.Boot(P.ToStageRegister, 0) && s'.workers[k].id in s'.w.records
  {
    if k < |s.workers| {
      assert P.Follows(s.w, s.workers[k]);
      SameWorker(pool, s, l, k);
      if !l.StoreCall? {
        RecordsElsewhere(pool, s, l, s.workers[k].id);
      }
    } else {
      NewWorker(pool, s, l, k);
    }
  }

  lemma SameWorker(pool: Scaling, s: PoolState, l: Label, k: nat)
    requires Threads(s) && Enabled(pool, s, l) && !l.Proceed? && !l.EndPass? && !l.Crash? && k < |s.workers|
    ensures !l.StoreCall? && k < |Do(pool, s, l).workers| && Do(pool, s, l).workers[k] == s.workers[k]
  {}

  lemma NewWorker(pool: Scaling, s: PoolState, l: Label, k: nat)
    requires Enabled(pool, s, l) && !l.Proceed? && !l.EndPass? && !l.Crash?
    requires |s.workers| <= k < |Do(pool, s, l).workers|
    ensures Do(pool, s, l).workers[k].pc == P.Boot(P.ToStageRegister, 0)
    ensures Do(pool, s, l).workers[k].id in Do(pool, s, l).w.records
  {}

  lemma NoneAfterwards(pool: Scaling, s: PoolState, l: Label)
    requires l.EndPass? || l.Crash?
    ensures Do(pool, s, l).workers == []
  {}

  lemma StepAdopts(pool: Scaling, start: PoolState, journal: seq<Label>, s: PoolState, l: Label, k: nat)
    requires s == Exec(pool, start, journal) && Inv(pool, s) && Enabled(pool, s, l)
    requires forall j :: 0 <= j < |s.workers| ==> Adopted(pool, start, journal, s, j)
    requires k < |Do(pool, s, l).workers|
    ensures Adopted(pool, start, journal + [l], Do(pool, s, l), k)
  {
    if l.EndPass? || l.Crash? {
      NoneAfterwards(pool, s, l);
    } else if l.Proceed? && l.k == k {
      assert P.Follows(s.w, s.workers[k]) && P.Fits(s.w, s.workers[k], l.choice);
      hide Inv, Enabled, Do, Adopted;
      AdoptedNext(pool, start, journal, s, k, l.choice);
    } else if l.Proceed? {
      ProceedDone(pool, s, l.k, l.choice);
      OtherProceeds(pool, s, l.k, l.choice, k);
      hide Inv, Enabled, Do, Adopted;
      AdoptedStill(pool, start, journal, s, l, Do(pool, s, l), k);
    } else {
      WorkersElsewhere(pool, s, l, k);
      hide Inv, Enabled, Do;
      if k < |s.workers| {
        AdoptedStill(pool, start, journal, s, l, Do(pool, s, l), k);
      }
    }
  }

  /** In every run, at every moment, a goroutine that has marked its record or ended with a
      success has seen its runner as the record says, in the same pass. */
  lemma {:induction false} SuccessesAdopted(pool: Scaling, start: PoolState, journal: seq<Label>, k: nat)
    requires Inv(pool, start) && start.workers == [] && Legal(pool, start, journal)
    requires k < |Exec(pool, start, journal).workers|
    ensures Adopted(pool, start, journal, Exec(pool, start, journal), k)
    decreases |journal|
  {
    hide Adopted, Inv, Enabled, Do;
    if journal != [] {
      var init, last := journal[..|journal| - 1], journal[|journal| - 1];
      var s := Exec(pool, start, init);
      RunKeeps(pool, start, init);
      forall j | 0 <= j < |s.workers|
        ensures Adopted(pool, start, init, s, j)
      {
        SuccessesAdopted(pool, start, init, j);
      }
      StepAdopts(pool, start, init, s, last, k);
      assert init + [last] == journal;
    }
  }

  /** The circuit is closed only by a success: some goroutine of the pass that closes it had
      its record adopted after a look at its runner in that pass, or found its job over. */
  lemma ResetAfterSuccess(pool: Scaling, start: PoolState, journal: seq<Label>, j: nat) returns (k: nat, i: nat)
    requires Inv(pool, start) && start.workers == [] && Legal(pool, start, journal)
    requires j < |journal| && journal[j].Reset?
    ensures var s := Exec(pool, start, journal[..j]);
            && k < |s.workers| && s.workers[k].pc == P.Done(true) && s.workers[k].id in s.w.records
            && i < j && SamePass(journal[..j], i)
            && exists status :: Looked(pool, start, journal[..j], i, k, status) &&
                 P.Adopts(s.w.records[s.workers[k].id], P.Done(true), Some(status))
  {
    hide Adopted, Inv, Enabled, Exec, Legal, Do;
    PrefixLegal(pool, start, journal, j);
    PrefixLegal(pool, start, journal, j + 1);
    assert journal[..j + 1] == journal[..j] + [journal[j]];
    Extend(pool, start, journal[..j], journal[j]);
    var s := Exec(pool, start, journal[..j]);
    k := ResetNeedsSuccess(pool, s, journal[j]);
    SuccessesAdopted(pool, start, journal[..j], k);
    i := SuccessSeen(pool, start, journal[..j], s, k);
  }

  lemma SuccessSeen(pool: Scaling, start: PoolState, journal: seq<Label>, s: PoolState, k: nat) returns (i: nat)
    requires Adopted(pool, start, journal, s, k) && s.workers[k].pc == P.Done(true)
    ensures i < |journal| && SamePass(journal, i)
    ensures s.workers[k].id in s.w.records
    ensures exists status :: Looked(pool, start, journal, i, k, status) &&
              P.Adopts(s.w.records[s.workers[k].id], P.Done(true), Some(status))
  {
    var status: Option<RunnerStatus>;
    i, status :| Looked(pool, start, journal, i, k, status) && SamePass(journal, i) &&
      P.Adopts(s.w.records[s.workers[k].id], P.Done(true), Some(status));
  }

  lemma ResetNeedsSuccess(pool: Scaling, s: PoolState, l: Label) returns (k: nat)
    requires Enabled(pool, s, l) && l.Reset?
    ensures k < |s.workers| && s.workers[k].pc == P.Done(true)
  {
    k :| 0 <= k < |s.workers| && s.workers[k].pc == P.Done(true);
  }
}
