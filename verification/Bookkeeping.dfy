/** What the runtime row of a pool says about its passes: which runs are filed as finished by
    the pass itself, and which are left running for the next start to find. */
module Bookkeeping {
  import opened Lifecycle
  import opened InstanceStore
  import opened Protocol
  import opened Runs
  import I = Incidents
  import PS = PoolStore

  lemma BookStep(pool: Scaling, s: PoolState, l: Label)
    ensures Do(pool, s, l).book == Booked(s.book, l)
  {}

  /** After step `i` of the journal the first progress of a run has been recorded. */
  ghost predicate Progressed(journal: seq<Label>, i: nat) {
    exists m :: i < m < |journal| && journal[m].ProgressRun? && journal[m].fate == Commits
  }

  /** After step `i` of the journal FinishPool has been called, with whatever success. */
  ghost predicate Filed(journal: seq<Label>, i: nat) {
    exists m :: i < m < |journal| && journal[m].FinishRun?
  }

  ghost predicate Died(journal: seq<Label>, i: nat) {
    exists m :: i < m < |journal| && journal[m].Crash?
  }

  /** Step `i` asked for the start of the last run. */
  ghost predicate LastRun(journal: seq<Label>, i: nat) {
    && i < |journal| && journal[i].StartRun?
    && forall m :: i < m < |journal| ==> !journal[m].StartRun?
  }

  /** How the book and the journal agree about the last run. */
  ghost predicate Accounted(b: Book, journal: seq<Label>, i: nat)
    requires LastRun(journal, i)
  {
    var runId := journal[i].runId;
    && (b.confirmed.Some? ==> b.confirmed.value == runId && journal[i].fate == Commits && !Progressed(journal, i))
    && (b.owed.Some? ==> b.owed.value == runId && Progressed(journal, i) && !Filed(journal, i))
    && (Progressed(journal, i) ==> journal[i].fate == Commits && b.confirmed == None)
    && (Filed(journal, i) ==> Progressed(journal, i) && b.owed == None && b.confirmed == None)
    && (Progressed(journal, i) && !Filed(journal, i) && !Died(journal, i) ==> b.owed.Some?)
    && (forall m :: i < m < |journal| && journal[m].FinishRun? ==> journal[m].runId == runId)
  }

  lemma AccountedNext(pool: Scaling, s: PoolState, journal: seq<Label>, i: nat, l: Label)
    requires LastRun(journal, i) && Accounted(s.book, journal, i) && !l.StartRun? && Enabled(pool, s, l)
    ensures LastRun(journal + [l], i) && Accounted(Do(pool, s, l).book, journal + [l], i)
  {
    var next := journal + [l];
    BookStep(pool, s, l);
    assert next[|journal|] == l;
    assert forall m :: 0 <= m < |journal| ==> next[m] == journal[m];
    assert Progressed(next, i) <==> Progressed(journal, i) || (l.ProgressRun? && l.fate == Commits);
    assert Filed(next, i) <==> Filed(journal, i) || l.FinishRun?;
    assert Died(next, i) <==> Died(journal, i) || l.Crash?;
    AccountedBook(s, journal, next, i, l);
  }

  lemma AccountedBook(s: PoolState, journal: seq<Label>, next: seq<Label>, i: nat, l: Label)
    requires LastRun(journal, i) && Accounted(s.book, journal, i)
    requires next == journal + [l] && LastRun(next, i) && !l.StartRun?
    requires Progressed(next, i) <==> Progressed(journal, i) || (l.ProgressRun? && l.fate == Commits)
    requires Filed(next, i) <==> Filed(journal, i) || l.FinishRun?
    requires Died(next, i) <==> Died(journal, i) || l.Crash?
    requires l.ProgressRun? ==> s.book.confirmed == Some(l.runId)
    requires l.FinishRun? ==> s.book.owed == Some(l.runId)
    ensures Accounted(Booked(s.book, l), next, i)
  {
    assert next[i] == journal[i];
    assert forall m :: i < m < |journal| ==> next[m] == journal[m];
  }

  lemma {:induction false} RunAccounted(pool: Scaling, start: PoolState, journal: seq<Label>, i: nat)
    requires Legal(pool, start, journal) && LastRun(journal, i)
    ensures Accounted(Exec(pool, start, journal).book, journal, i)
    decreases |journal|
  {
    var init, last := journal[..|journal| - 1], journal[|journal| - 1];
    var s := Exec(pool, start, init);
    if i == |journal| - 1 {
      BookStep(pool, s, last);
    } else {
      assert LastRun(init, i);
      RunAccounted(pool, start, init, i);
      AccountedNext(pool, s, init, i, last);
      assert init + [last] == journal;
    }
  }

  /** Step `e` comes after the pass that began at step `i`: it is the next start of a run, or
      the journal ends there with nothing still to be done. */
  ghost predicate PassOver(pool: Scaling, start: PoolState, journal: seq<Label>, i: nat, e: nat) {
    && i < e <= |journal| && LastRun(journal[..e], i) && !Died(journal[..e], i)
    && (e < |journal| ==> journal[e].StartRun?)
    && (e == |journal| ==> var b := Exec(pool, start, journal).book; b.confirmed == None && b.owed == None)
  }

  /** A pass that is not cut off calls FinishPool for its run if and only if its StartPool and
      its first setProgress have both succeeded; and it calls it for no other run. */
  lemma FinishedExactly(pool: Scaling, start: PoolState, journal: seq<Label>, i: nat, e: nat)
    requires Legal(pool, start, journal) && PassOver(pool, start, journal, i, e)
    ensures Filed(journal[..e], i) <==> journal[i].fate == Commits && Progressed(journal[..e], i)
    ensures forall m :: i < m < e && journal[m].FinishRun? ==> journal[m].runId == journal[i].runId
  {
    PrefixLegal(pool, start, journal, e);
    RunAccounted(pool, start, journal[..e], i);
    NothingOpen(pool, start, journal, i, e);
    hide Exec, Legal, Enabled, Do;
    assert forall m :: 0 <= m < e ==> journal[..e][m] == journal[m];
  }

  lemma NothingOpen(pool: Scaling, start: PoolState, journal: seq<Label>, i: nat, e: nat)
    requires Legal(pool, start, journal) && PassOver(pool, start, journal, i, e)
    ensures var b := Exec(pool, start, journal[..e]).book; b.confirmed == None && b.owed == None
  {
    hide Legal, Enabled, LastRun, Died;
    if e < |journal| {
      PrefixLegal(pool, start, journal, e + 1);
      assert journal[..e + 1] == journal[..e] + [journal[e]];
      Extend(pool, start, journal[..e], journal[e]);
      FreeToStart(pool, Exec(pool, start, journal[..e]), journal[e]);
    } else {
      assert journal[..e] == journal;
    }
  }

  lemma FreeToStart(pool: Scaling, s: PoolState, l: Label)
    requires Enabled(pool, s, l) && l.StartRun?
    ensures s.book.confirmed == None && s.book.owed == None && s.book.settled
  {}

  /** Nothing after step `i` has touched the run: no new run, no interruption at a start. */
  ghost predicate Undisturbed(journal: seq<Label>, i: nat) {
    forall m :: i < m < |journal| ==> !journal[m].StartRun? && !journal[m].InterruptRun?
  }

  lemma {:induction false} RowStays(pool: Scaling, start: PoolState, journal: seq<Label>, i: nat)
    requires i < |journal| && journal[i].StartRun? && journal[i].fate != FailsBefore
    requires Undisturbed(journal, i) && !Filed(journal, i)
    ensures Exec(pool, start, journal).book.row == Some(RunRow(journal[i].runId, I.RunRunning))
    decreases |journal|
  {
    var init, last := journal[..|journal| - 1], journal[|journal| - 1];
    BookStep(pool, Exec(pool, start, init), last);
    if i < |journal| - 1 {
      assert forall m :: i < m < |init| ==> init[m] == journal[m];
      RowStays(pool, start, init, i);
    }
  }

  /** Otherwise a run that was started, knowingly or not, is left running: through the rest of
      its pass and through any death of the process, until another run of the pool is started
      or InterruptPools files it. */
  lemma LeftRunning(pool: Scaling, start: PoolState, journal: seq<Label>, i: nat)
    requires Legal(pool, start, journal) && LastRun(journal, i) && Undisturbed(journal, i)
    requires journal[i].fate != FailsBefore && !(journal[i].fate == Commits && Progressed(journal, i))
    ensures !Filed(journal, i)
    ensures Exec(pool, start, journal).book.row == Some(RunRow(journal[i].runId, I.RunRunning))
  {
    RunAccounted(pool, start, journal, i);
    RowStays(pool, start, journal, i);
  }

  /** A committed InterruptPools leaves no run running: it files the one that was as failed. */
  lemma InterruptedRun(pool: Scaling, s: PoolState)
    ensures var b := Do(pool, s, InterruptRun(Commits)).book;
            && (b.row.Some? ==> b.row.value.state != I.RunRunning)
            && (s.book.row.Some? && s.book.row.value.state == I.RunRunning ==>
                  b.row == Some(RunRow(s.book.row.value.runId, I.RunFailed)))
            && (s.book.row.None? || s.book.row.value.state != I.RunRunning ==> b.row == s.book.row)
  {}

  /** The process that is running has interrupted what an earlier one had left. */
  ghost predicate Interrupted(journal: seq<Label>, i: nat) {
    && i < |journal| && journal[i] == InterruptRun(Commits)
    && forall m :: i < m < |journal| ==> !journal[m].Crash?
  }

  lemma {:induction false} SettledMeans(pool: Scaling, start: PoolState, journal: seq<Label>) returns (i: nat)
    requires Exec(pool, start, journal).book.settled && !start.book.settled
    ensures Interrupted(journal, i)
  {
    var init, last := journal[..|journal| - 1], journal[|journal| - 1];
    BookStep(pool, Exec(pool, start, init), last);
    if last == InterruptRun(Commits) {
      i := |journal| - 1;
    } else {
      i := SettledMeans(pool, start, init);
      assert forall m :: 0 <= m < |init| ==> init[m] == journal[m];
    }
  }

  /** No run is started before InterruptPools has succeeded in the same process. */
  lemma InterruptedFirst(pool: Scaling, start: PoolState, journal: seq<Label>, j: nat) returns (i: nat)
    requires Legal(pool, start, journal) && !start.book.settled && j < |journal| && journal[j].StartRun?
    ensures Interrupted(journal[..j], i)
  {
    hide Legal, Enabled, Exec;
    PrefixLegal(pool, start, journal, j + 1);
    assert journal[..j + 1] == journal[..j] + [journal[j]];
    Extend(pool, start, journal[..j], journal[j]);
    FreeToStart(pool, Exec(pool, start, journal[..j]), journal[j]);
    i := SettledMeans(pool, start, journal[..j]);
  }

  /** So a run that a dead process has left running is filed before another one takes its
      place: from the interruption to the next start the row holds no running run. */
  lemma {:induction false} NothingOverwritten(pool: Scaling, start: PoolState, journal: seq<Label>, i: nat)
    requires Legal(pool, start, journal) && Interrupted(journal, i)
    requires forall m :: i < m < |journal| ==> !journal[m].StartRun?
    ensures var row := Exec(pool, start, journal).book.row; row.Some? ==> row.value.state != I.RunRunning
    decreases |journal|
  {
    var init, last := journal[..|journal| - 1], journal[|journal| - 1];
    var s := Exec(pool, start, init);
    BookStep(pool, s, last);
    if i < |init| {
      assert forall m :: 0 <= m < |init| ==> init[m] == journal[m];
      NothingOverwritten(pool, start, init, i);
      if last.FinishRun? {
        FinishedRunning(pool, s, last);
      }
    }
  }

  lemma FinishedRunning(pool: Scaling, s: PoolState, l: Label)
    requires Enabled(pool, s, l) && l.FinishRun?
    ensures l.state != I.RunRunning
  {}

  /** The pass never calls FinishPool for a run that the row no longer holds. */
  lemma FinishNeverStale(pool: Scaling, start: PoolState, journal: seq<Label>, l: Label)
    requires Inv(pool, start) && Legal(pool, start, journal) && Enabled(pool, Exec(pool, start, journal), l) &&
             l.FinishRun?
    ensures Exec(pool, start, journal).book.row == Some(RunRow(l.runId, I.RunRunning))
    ensures l.fate != FailsBefore ==>
              Do(pool, Exec(pool, start, journal), l).book.row == Some(RunRow(l.runId, l.state))
  {
    RunKeeps(pool, start, journal);
  }

  /** The results FinishPool was called with, in the order of the journal. */
  function FilingsIn(journal: seq<Label>): seq<RunRow> {
    if journal == [] then []
    else
      var last := journal[|journal| - 1];
      FilingsIn(journal[..|journal| - 1]) + if last.FinishRun? then [RunRow(last.runId, last.state)] else []
  }

  lemma {:induction false} FilingsKept(pool: Scaling, start: PoolState, journal: seq<Label>)
    ensures Exec(pool, start, journal).book.filings == start.book.filings + FilingsIn(journal)
  {
    if journal != [] {
      var init, last := journal[..|journal| - 1], journal[|journal| - 1];
      FilingsKept(pool, start, init);
      BookStep(pool, Exec(pool, start, init), last);
    }
  }

  // ---- the row is the one of the store ----

  function RowOf(t: PS.PoolTables, pool: string): Option<RunRow> {
    if pool in t.runtime then Some(RunRow(t.runtime[pool].runId, t.runtime[pool].state)) else None
  }

  /** The book moves as the transactions of the store move the pool's runtime row, and those
      of other pools leave it alone. */
  lemma RowFollowsStore(t: PS.PoolTables, pool: string, b: Book, runId: string, at: Time, r: I.PoolResult)
    requires RowOf(t, pool) == b.row
    ensures RowOf(PS.AfterStart(t, pool, runId, at), pool) == Booked(b, StartRun(runId, Commits)).row
    ensures var t' := PS.AfterFinish(t, r);
            && (t'.Some? && r.pool == pool ==>
                RowOf(t'.value, pool) == Booked(b, FinishRun(r.runId, r.state, Commits)).row)
            && (t'.Some? && r.pool != pool ==> RowOf(t'.value, pool) == b.row)
            && (t'.None? && r.pool == pool && r.state != I.RunRunning ==>
                  Booked(b, FinishRun(r.runId, r.state, Commits)).row == b.row)
    ensures forall p :: p != pool ==> RowOf(PS.AfterStart(t, p, runId, at), pool) == b.row
    ensures b.row.Some? && b.row.value.state == I.RunRunning ==>
              var t' := PS.AfterFinish(t, PS.InterruptedResult(pool, b.row.value.runId, at));
              t'.Some? && RowOf(t'.value, pool) == Booked(b, InterruptRun(Commits)).row
  {}
}
