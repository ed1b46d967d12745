/** The `pool_runtime` and `pool_incidents` tables as one transactional state machine. */
module PoolStore {
  import opened Arithmetic
  import opened Lifecycle
  import opened Incidents
  import opened InstanceStore
  import B = Breaker

  /** A row of `pool_runtime`. `incident` is `active_incident_id`, 0 for NULL. */
  datatype Runtime = Runtime(
    runId: string,
    state: RunState,
    startedAt: Time,
    finishedAt: Time,
    lastSuccessAt: Time,
    incident: nat,
    bootstrap: B.Row)

  datatype PoolTables = PoolTables(runtime: map<string, Runtime>, incidents: seq<Incident>)

  /** The runtime rows of the pools in a given state. */
  function PoolsIn(t: PoolTables, state: RunState): set<string> {
    set p | p in t.runtime && t.runtime[p].state == state
  }

  function AfterStart(t: PoolTables, pool: string, runId: string, at: Time): PoolTables {
    var inserted := Runtime(runId, RunRunning, at, 0, 0, 0, B.Row(0, 0));
    var row := if pool in t.runtime
               then t.runtime[pool].(runId := runId, state := RunRunning, startedAt := at, finishedAt := 0)
               else inserted;
    t.(runtime := t.runtime[pool := row])
  }

  /** The tables after a committed result, or None where the transaction is rolled back. */
  function AfterFinish(t: PoolTables, r: PoolResult): Option<PoolTables> {
    if r.state == RunRunning then None
    else if r.pool !in t.runtime || t.runtime[r.pool].runId != r.runId then None
    else
      var row := t.runtime[r.pool].(state := r.state, finishedAt := r.finishedAt);
      if r.state == RunFailed then
        var (incidents, id) := Recorded(t.incidents, r);
        Some(PoolTables(t.runtime[r.pool := row.(incident := id)], incidents))
      else
        Some(PoolTables(t.runtime[r.pool := row.(incident := 0, lastSuccessAt := r.finishedAt)],
                        Cleared(t.incidents, r.pool, r.finishedAt)))
  }

  /** A start touches nothing of what earlier passes have left: not the incident, not the last
      success, and not the circuit breaker; a new row has none of them. */
  lemma StartKeepsRest(t: PoolTables, pool: string, runId: string, at: Time)
    ensures var t' := AfterStart(t, pool, runId, at);
            && t'.incidents == t.incidents && t'.runtime.Keys == t.runtime.Keys + {pool}
            && (forall p :: p in t.runtime && p != pool ==> t'.runtime[p] == t.runtime[p])
            && var row := t'.runtime[pool];
               && row.runId == runId && row.state == RunRunning && row.startedAt == at && row.finishedAt == 0
               && (pool in t.runtime ==>
                     && row.bootstrap == t.runtime[pool].bootstrap && row.incident == t.runtime[pool].incident
                     && row.lastSuccessAt == t.runtime[pool].lastSuccessAt)
               && (pool !in t.runtime ==>
                     row.bootstrap == B.Row(0, 0) && row.incident == 0 && row.lastSuccessAt == 0)
  {}

  /** A result touches neither the circuit breaker nor the rows of other pools, and moves the
      time of the last success exactly if it is one. */
  lemma FinishKeepsRest(t: PoolTables, r: PoolResult)
    ensures var t' := AfterFinish(t, r);
            && (t'.Some? <==>
                  r.state != RunRunning && r.pool in t.runtime && t.runtime[r.pool].runId == r.runId)
            && (t'.Some? ==>
                  && t'.value.runtime.Keys == t.runtime.Keys
                  && (forall p :: p in t.runtime && p != r.pool ==> t'.value.runtime[p] == t.runtime[p])
                  && var before, row := t.runtime[r.pool], t'.value.runtime[r.pool];
                     && row.runId == r.runId && row.state == r.state && row.finishedAt == r.finishedAt
                     && row.startedAt == before.startedAt && row.bootstrap == before.bootstrap
                     && row.lastSuccessAt == if r.state == RunSucceeded then r.finishedAt else before.lastSuccessAt)
  {}

  function InterruptedResult(pool: string, runId: string, at: Time): PoolResult {
    PoolResult(pool, runId, RunFailed, at,
               Failure(StageController, Interrupted, "controller stopped during reconciliation", "", ""))
  }

  /** An interrupted run is filed as a failure of the controller itself, under its own ID. */
  lemma InterruptionShows(incidents: seq<Incident>, pool: string, runId: string, at: Time)
    ensures var r := InterruptedResult(pool, runId, at);
            var (after, id) := Recorded(incidents, r);
            && r.state == RunFailed && r.pool == pool && r.runId == runId && r.finishedAt == at
            && 0 < id <= |after| && Open(after[id - 1])
            && after[id - 1].pool == pool && after[id - 1].runId == runId
            && after[id - 1].stage == StageController && after[id - 1].code == Interrupted
  {}

  /** The results that interrupting the given pools adds to one pool's history. */
  function Interruption(t: PoolTables, pools: set<string>, pool: string, at: Time): seq<PoolResult> {
    if pool in pools && pool in t.runtime then [InterruptedResult(pool, t.runtime[pool].runId, at)] else []
  }

  // ---- the invariant ----

  /** Two incidents of a pool are never both unresolved, and the earlier one is resolved. */
  ghost predicate OnlyLastOpen(incidents: seq<Incident>) {
    forall i, j :: 0 <= i < j < |incidents| && incidents[i].pool == incidents[j].pool ==> !Open(incidents[i])
  }

  ghost predicate EncodesHistory(incidents: seq<Incident>, history: seq<PoolResult>) {
    forall p :: Of(incidents, p) == Encode(HistoryOf(history, p))
  }

  /** The incident table is the run-length encoding of the committed results, pool by pool,
      and each runtime row points at exactly its pool's open incident. */
  ghost predicate Agrees(t: PoolTables, history: seq<PoolResult>) {
    && OnlyLastOpen(t.incidents)
    && EncodesHistory(t.incidents, history)
    && (forall p :: p in t.runtime ==> t.runtime[p].incident == OpenId(t.incidents, p))
    && (forall k :: 0 <= k < |t.incidents| ==> t.incidents[k].pool in t.runtime)
  }

  lemma {:induction false} OfUpdate(incidents: seq<Incident>, i: nat, x: Incident, p: string)
    requires i < |incidents| && x.pool == incidents[i].pool
    requires forall k :: i < k < |incidents| ==> incidents[k].pool != x.pool
    ensures p != x.pool ==> Of(incidents[i := x], p) == Of(incidents, p)
    ensures var code := Of(incidents, x.pool);
            && |code| > 0 && code[|code| - 1] == incidents[i]
            && Of(incidents[i := x], x.pool) == code[|code| - 1 := x]
    decreases |incidents|
  {
    var n := |incidents|;
    var init := incidents[..n - 1];
    if i == n - 1 {
      assert incidents[i := x][..n - 1] == init;
    } else {
      assert incidents[i := x][..n - 1] == init[i := x];
      OfUpdate(init, i, x, p);
    }
  }

  lemma OfAppend(incidents: seq<Incident>, x: Incident, p: string)
    ensures Of(incidents + [x], p) == if x.pool == p then Of(incidents, p) + [x] else Of(incidents, p)
  {
    assert (incidents + [x])[..|incidents|] == incidents;
  }

  /** The last entry of a pool's column is open exactly when OpenId finds it. */
  lemma {:induction false} OfOpen(incidents: seq<Incident>, p: string)
    requires OnlyLastOpen(incidents)
    ensures var code := Of(incidents, p);
            var id := OpenId(incidents, p);
            && (|code| > 0 && Open(code[|code| - 1]) <==> id > 0)
            && (id > 0 ==> code[|code| - 1] == incidents[id - 1])
            && (id > 0 ==> forall k :: id <= k < |incidents| ==> incidents[k].pool != p)
    decreases |incidents|
  {
    if incidents != [] {
      var init := incidents[..|incidents| - 1];
      assert forall k :: 0 <= k < |init| ==> init[k] == incidents[k];
      OfOpen(init, p);
    }
  }

  lemma ClearedIsUpdate(incidents: seq<Incident>, p: string, at: Time)
    requires OnlyLastOpen(incidents)
    ensures var id := OpenId(incidents, p);
            Cleared(incidents, p, at) ==
            if id > 0 then incidents[id - 1 := Resolved(incidents[id - 1], at)] else incidents
  {
    var id := OpenId(incidents, p);
    var rest := Cleared(incidents, p, at);
    assert forall k :: 0 <= k < |incidents| && k + 1 != id ==> rest[k] == incidents[k];
  }

  lemma FiledElsewhere(incidents: seq<Incident>, r: PoolResult, p: string)
    requires OnlyLastOpen(incidents) && p != r.pool
    ensures Of(Filed(incidents, r), p) == Of(incidents, p)
  {
    OfOpen(incidents, r.pool);
    ClearedIsUpdate(incidents, r.pool, r.finishedAt);
    hide OnlyLastOpen, Of, OpenId;
    var id := OpenId(incidents, r.pool);
    var closed := incidents;
    if id > 0 {
      var x := if r.state == RunFailed && SameFailure(incidents[id - 1], r)
               then SeenAgain(incidents[id - 1], r) else Resolved(incidents[id - 1], r.finishedAt);
      OfUpdate(incidents, id - 1, x, p);
      closed := incidents[id - 1 := x];
    }
    OfAppend(closed, NewIncident(r), p);
  }

  lemma ClearedAbsorbs(incidents: seq<Incident>, r: PoolResult)
    requires OnlyLastOpen(incidents) && r.state != RunFailed
    ensures Of(Filed(incidents, r), r.pool) == Absorb(Of(incidents, r.pool), r)
  {
    OfOpen(incidents, r.pool);
    ClearedIsUpdate(incidents, r.pool, r.finishedAt);
    var id := OpenId(incidents, r.pool);
    if id > 0 {
      OfUpdate(incidents, id - 1, Resolved(incidents[id - 1], r.finishedAt), r.pool);
    }
  }

  lemma RecordedAbsorbs(incidents: seq<Incident>, r: PoolResult)
    requires OnlyLastOpen(incidents) && r.state == RunFailed
    ensures Of(Filed(incidents, r), r.pool) == Absorb(Of(incidents, r.pool), r)
  {
    OfOpen(incidents, r.pool);
    var id := OpenId(incidents, r.pool);
    if id > 0 && SameFailure(incidents[id - 1], r) {
      OfUpdate(incidents, id - 1, SeenAgain(incidents[id - 1], r), r.pool);
    } else if id > 0 {
      var x := Resolved(incidents[id - 1], r.finishedAt);
      OfUpdate(incidents, id - 1, x, r.pool);
      OfAppend(incidents[id - 1 := x], NewIncident(r), r.pool);
    } else {
      OfAppend(incidents, NewIncident(r), r.pool);
    }
  }

  /** Filing one result changes the pool's own column as Absorb says, and no other column. */
  lemma FiledAbsorbs(incidents: seq<Incident>, r: PoolResult, p: string)
    requires OnlyLastOpen(incidents)
    ensures Of(Filed(incidents, r), p) == if p == r.pool then Absorb(Of(incidents, p), r) else Of(incidents, p)
  {
    if p != r.pool {
      FiledElsewhere(incidents, r, p);
    } else if r.state == RunFailed {
      RecordedAbsorbs(incidents, r);
    } else {
      ClearedAbsorbs(incidents, r);
    }
  }

  lemma FiledOnlyLastOpen(incidents: seq<Incident>, r: PoolResult)
    requires OnlyLastOpen(incidents)
    ensures OnlyLastOpen(Filed(incidents, r))
  {
    OfOpen(incidents, r.pool);
    ClearedIsUpdate(incidents, r.pool, r.finishedAt);
  }

  lemma OpenIdIs(incidents: seq<Incident>, p: string, id: nat)
    requires id <= |incidents|
    requires id > 0 ==> incidents[id - 1].pool == p && Open(incidents[id - 1])
    requires forall k :: id <= k < |incidents| && incidents[k].pool == p ==> !Open(incidents[k])
    ensures OpenId(incidents, p) == id
  {}

  lemma FiledOpenIdElsewhere(incidents: seq<Incident>, r: PoolResult, p: string)
    requires OnlyLastOpen(incidents) && p != r.pool
    ensures OpenId(Filed(incidents, r), p) == OpenId(incidents, p)
  {
    ClearedIsUpdate(incidents, r.pool, r.finishedAt);
    OpenIdIs(Filed(incidents, r), p, OpenId(incidents, p));
  }

  lemma FiledOpenIdHere(incidents: seq<Incident>, r: PoolResult)
    requires OnlyLastOpen(incidents)
    ensures OpenId(Filed(incidents, r), r.pool) == if r.state == RunFailed then Recorded(incidents, r).1 else 0
  {
    if r.state == RunFailed {
      OpenIdIs(Filed(incidents, r), r.pool, Recorded(incidents, r).1);
    } else {
      OpenIdIs(Filed(incidents, r), r.pool, 0);
    }
  }

  lemma HistoryAppend(history: seq<PoolResult>, r: PoolResult, p: string)
    ensures HistoryOf(history + [r], p) == if r.pool == p then HistoryOf(history, p) + [r] else HistoryOf(history, p)
  {
    assert (history + [r])[..|history|] == history;
  }

  /** A committed result keeps the tables in agreement with the history it extends. */
  lemma FinishKeepsAgreement(t: PoolTables, history: seq<PoolResult>, r: PoolResult)
    requires Agrees(t, history) && AfterFinish(t, r).Some?
    ensures Agrees(AfterFinish(t, r).value, history + [r])
  {
    var t' := AfterFinish(t, r).value;
    assert t'.incidents == Filed(t.incidents, r);
    FiledOnlyLastOpen(t.incidents, r);
    forall p
      ensures Of(t'.incidents, p) == Encode(HistoryOf(history + [r], p))
    {
      FiledAbsorbs(t.incidents, r, p);
      HistoryAppend(history, r, p);
      EncodeAppend(HistoryOf(history, p), r);
      assert Of(t.incidents, p) == Encode(HistoryOf(history, p));
    }
    forall p | p in t'.runtime
      ensures t'.runtime[p].incident == OpenId(t'.incidents, p)
    {
      if p == r.pool {
        FiledOpenIdHere(t.incidents, r);
      } else {
        FiledOpenIdElsewhere(t.incidents, r, p);
      }
    }
    FiledKeepsPools(t, r);
  }

  lemma OpenIncidentNamed(t: PoolTables, history: seq<PoolResult>, p: string)
    requires OnlyLastOpen(t.incidents) && p in t.runtime && t.runtime[p].incident == OpenId(t.incidents, p)
    requires Of(t.incidents, p) == Encode(HistoryOf(history, p))
    ensures var h := HistoryOf(history, p); t.runtime[p].incident > 0 <==> |h| > 0 && h[|h| - 1].state == RunFailed
  {
    OfOpen(t.incidents, p);
    OnlyLastFailureOpen(HistoryOf(history, p));
  }

  /** What agreement means for one pool: at most one open incident, named by the runtime row
      exactly while the last committed pass failed, and no failed pass uncounted. */
  lemma OneOpenIncident(t: PoolTables, history: seq<PoolResult>, p: string)
    requires Agrees(t, history) && p in t.runtime
    ensures var id := t.runtime[p].incident;
            && (forall k :: 0 <= k < |t.incidents| && t.incidents[k].pool == p ==>
                (Open(t.incidents[k]) <==> id == k + 1))
            && (id > 0 <==> var h := HistoryOf(history, p); |h| > 0 && h[|h| - 1].state == RunFailed)
            && Occurrences(Of(t.incidents, p)) == Failures(HistoryOf(history, p))
  {
    OpenIncidentNamed(t, history, p);
    OccurrencesCountFailures(HistoryOf(history, p));
  }

  lemma FiledKeepsPools(t: PoolTables, r: PoolResult)
    requires r.pool in t.runtime
    requires forall k :: 0 <= k < |t.incidents| ==> t.incidents[k].pool in t.runtime
    ensures forall k :: 0 <= k < |Filed(t.incidents, r)| ==> Filed(t.incidents, r)[k].pool in t.runtime
  {}

  lemma StartKeepsAgreement(t: PoolTables, history: seq<PoolResult>, pool: string, runId: string, at: Time)
    requires Agrees(t, history)
    ensures Agrees(AfterStart(t, pool, runId, at), history)
  {
    if pool !in t.runtime {
      assert OpenId(t.incidents, pool) == 0;
    }
  }

  lemma InterruptionGrows(t: PoolTables, start: seq<PoolResult>, soFar: seq<PoolResult>, done: set<string>, p: string,
                          at: Time)
    requires p in t.runtime && p !in done
    requires forall q :: HistoryOf(soFar, q) == HistoryOf(start, q) + Interruption(t, done, q, at)
    ensures var more := soFar + [InterruptedResult(p, t.runtime[p].runId, at)];
            forall q :: HistoryOf(more, q) == HistoryOf(start, q) + Interruption(t, done + {p}, q, at)
  {
    var r := InterruptedResult(p, t.runtime[p].runId, at);
    forall q
      ensures HistoryOf(soFar + [r], q) == HistoryOf(start, q) + Interruption(t, done + {p}, q, at)
    {
      HistoryAppend(soFar, r, q);
      assert HistoryOf(soFar, q) == HistoryOf(start, q) + Interruption(t, done, q, at);
    }
  }

  /** Part-way through InterruptPools: the pools in `done` have been finished. */
  ghost predicate Midway(t0: PoolTables, h0: seq<PoolResult>, runtime: map<string, Runtime>, h: seq<PoolResult>,
                         done: set<string>, at: Time) {
    && runtime.Keys == t0.runtime.Keys
    && done <= PoolsIn(t0, RunRunning)
    && (forall p :: p in runtime && p !in done ==> runtime[p] == t0.runtime[p])
    && (forall p :: p in done ==> runtime[p].state == RunFailed)
    && (forall p :: HistoryOf(h, p) == HistoryOf(h0, p) + Interruption(t0, done, p, at))
  }

  lemma MidwayStep(t0: PoolTables, h0: seq<PoolResult>, runtime: map<string, Runtime>, h: seq<PoolResult>,
                   done: set<string>, at: Time, pool: string, runtime': map<string, Runtime>)
    requires Midway(t0, h0, runtime, h, done, at)
    requires pool in PoolsIn(t0, RunRunning) && pool !in done
    requires runtime'.Keys == runtime.Keys && runtime'[pool].state == RunFailed
    requires forall q :: q in runtime && q != pool ==> runtime'[q] == runtime[q]
    ensures runtime[pool] == t0.runtime[pool]
    ensures Midway(t0, h0, runtime', h + [InterruptedResult(pool, runtime[pool].runId, at)], done + {pool}, at)
  {
    InterruptionGrows(t0, h0, h, done, pool, at);
  }

  lemma MidwayBegins(t: PoolTables, h: seq<PoolResult>, at: Time)
    ensures Midway(t, h, t.runtime, h, {}, at)
  {
    forall p
      ensures HistoryOf(h, p) == HistoryOf(h, p) + Interruption(t, {}, p, at)
    {}
  }

  lemma MidwayEnds(t0: PoolTables, h0: seq<PoolResult>, t: PoolTables, h: seq<PoolResult>, at: Time)
    requires Midway(t0, h0, t.runtime, h, PoolsIn(t0, RunRunning), at)
    ensures PoolsIn(t, RunRunning) == {}
    ensures forall p :: HistoryOf(h, p) == HistoryOf(h0, p) + Interruption(t0, PoolsIn(t0, RunRunning), p, at)
  {}

  // ---- the store ----

  class PoolStore {
    var runtime: map<string, Runtime>
    var incidents: seq<Incident>
    /** Every result that was committed, oldest first. */
    ghost var history: seq<PoolResult>

    function View(): PoolTables
      reads this
    {
      PoolTables(runtime, incidents)
    }

    ghost predicate Valid()
      reads this
    {
      Agrees(View(), history)
    }

    constructor ()
      ensures Valid() && View() == PoolTables(map[], []) && history == []
    {
      runtime, incidents, history := map[], [], [];
    }

    method StartPool(pool: string, runId: string, at: Time, fate: Fate) returns (ok: bool)
      requires Valid()
      modifies this
      ensures Valid() && history == old(history)
      ensures ok <==> pool != "" && runId != "" && fate == Commits
      ensures View() == if pool == "" || runId == "" || fate == FailsBefore then old(View())
                        else AfterStart(old(View()), pool, runId, at)
    {
      if pool == "" || runId == "" {
        return false;
      }
      if fate == FailsBefore {
        return false;
      }
      StartKeepsAgreement(View(), history, pool, runId, at);
      if pool in runtime {
        runtime := runtime[pool := runtime[pool].(
          runId := runId, state := RunRunning, startedAt := at, finishedAt := 0)];
      } else {
        runtime := runtime[pool := Runtime(runId, RunRunning, at, 0, 0, 0, B.Row(0, 0))];
      }
      return fate == Commits;
    }

    method FinishPool(r: PoolResult, fate: Fate) returns (ok: bool)
      requires Valid()
      modifies this
      ensures Valid()
      ensures var t := AfterFinish(old(View()), r);
              if t.Some? && fate != FailsBefore
              then View() == t.value && history == old(history) + [r]
              else View() == old(View()) && history == old(history)
      ensures ok <==> AfterFinish(old(View()), r).Some? && fate == Commits
    {
      if r.state == RunRunning {
        return false;
      }
      var incidents', active := incidents, 0;
      if r.state == RunFailed {
        incidents', active := RecordIncident(r);
      } else {
        incidents' := Cleared(incidents, r.pool, r.finishedAt);
      }
      if r.pool !in runtime || runtime[r.pool].runId != r.runId || fate == FailsBefore {
        return false;
      }
      FinishKeepsAgreement(View(), history, r);
      var row := runtime[r.pool].(state := r.state, finishedAt := r.finishedAt, incident := active);
      if r.state == RunSucceeded {
        row := row.(lastSuccessAt := r.finishedAt);
      }
      runtime := runtime[r.pool := row];
      incidents := incidents';
      history := history + [r];
      return fate == Commits;
    }

    /** The incident rows the enclosing transaction would write, and the active ID. */
    method RecordIncident(r: PoolResult) returns (rows: seq<Incident>, id: nat)
      ensures (rows, id) == Recorded(incidents, r)
    {
      rows, id := incidents, OpenId(incidents, r.pool);
      if id > 0 && SameFailure(rows[id - 1], r) {
        rows := rows[id - 1 := SeenAgain(rows[id - 1], r)];
        return;
      }
      if id > 0 {
        rows := rows[id - 1 := Resolved(rows[id - 1], r.finishedAt)];
      }
      rows := rows + [NewIncident(r)];
      id := |rows|;
    }

    /** The body of the loop below: the call of FinishPool for one interrupted run. */
    method FinishInterrupted(pool: string, at: Time, ghost before: PoolTables, ghost start: seq<PoolResult>,
                             ghost done: set<string>)
      returns (ok: bool)
      requires Valid() && Midway(before, start, runtime, history, done, at)
      requires pool in PoolsIn(before, RunRunning) && pool !in done
      modifies this
      ensures Valid()
      ensures ok ==> Midway(before, start, runtime, history, done + {pool}, at)
    {
      var fate: Fate := *;
      ghost var rows, soFar := runtime, history;
      ok := FinishPool(InterruptedResult(pool, runtime[pool].runId, at), fate);
      if ok {
        MidwayStep(before, start, rows, soFar, done, at, pool, runtime);
      }
    }

    /** Runs at start-up. When it succeeds no pool is left running, each pool that was
        running has exactly one more result, the interruption, and no other pool has any. */
    method InterruptPools(at: Time) returns (ok: bool)
      requires Valid()
      modifies this
      ensures Valid()
      ensures ok ==> PoolsIn(View(), RunRunning) == {}
      ensures ok ==> forall p :: HistoryOf(history, p) == HistoryOf(old(history), p) +
                                 Interruption(old(View()), PoolsIn(old(View()), RunRunning), p, at)
      ensures PoolsIn(old(View()), RunRunning) == {} ==> View() == old(View()) && history == old(history)
    {
      hide Agrees, Midway, HistoryOf, Interruption;
      ghost var before, start := View(), history;
      var runs := PoolsIn(View(), RunRunning);
      var rest := runs;
      MidwayBegins(before, start, at);
      assert runs - rest == {};
      while rest != {}
        invariant Valid() && rest <= runs
        invariant Midway(before, start, runtime, history, runs - rest, at)
        invariant rest == runs ==> View() == before && history == start
      {
        var pool :| pool in rest;
        var done := FinishInterrupted(pool, at, before, start, runs - rest);
        if !done {
          return false;
        }
        assert runs - rest + {pool} == runs - (rest - {pool});
        rest := rest - {pool};
      }
      assert runs - rest == runs;
      MidwayEnds(before, start, View(), history, at);
      return true;
    }

    method ReserveBootstrap(pool: string, wanted: int, limit: int, now: Time, retryAt: Time, fate: Fate)
      returns (reservation: Option<B.Reservation>)
      requires Valid()
      modifies this
      ensures Valid() && history == old(history) && incidents == old(incidents)
      ensures reservation.Some? <==> pool in old(runtime) && wanted >= 1 && limit >= 1 && fate == Commits
      ensures if pool in old(runtime) && wanted >= 1 && limit >= 1
              then
                var row := old(runtime)[pool];
                var r := B.Reserve(row.bootstrap, wanted, limit, now, retryAt);
                && (fate == Commits ==> reservation == Some(r))
                && runtime == if fate == FailsBefore then old(runtime)
                              else old(runtime)[pool := row.(bootstrap := r.state)]
              else runtime == old(runtime)
    {
      if pool !in runtime || wanted < 1 || limit < 1 || fate == FailsBefore {
        return None;
      }
      var row := runtime[pool];
      var state := row.bootstrap;
      var count, probe := 0, false;
      if state.attempts >= limit {
        if state.retryAt != 0 && now < state.retryAt {
          assert runtime[pool := row.(bootstrap := state)] == runtime;
          return if fate == Commits then Some(B.Reservation(0, false, state)) else None;
        }
        if state.retryAt == 0 {
          state := state.(retryAt := retryAt);
        } else {
          count, probe := 1, true;
          state := state.(retryAt := retryAt);
        }
      } else {
        count := Min(wanted, limit - state.attempts);
        state := state.(attempts := state.attempts + count);
      }
      runtime := runtime[pool := row.(bootstrap := state)];
      return if fate == Commits then Some(B.Reservation(count, probe, state)) else None;
    }

    method HoldBootstrap(pool: string, retryAt: Time, fate: Fate) returns (ok: bool)
      requires Valid()
      modifies this
      ensures Valid() && history == old(history) && incidents == old(incidents)
      ensures ok <==> pool in old(runtime) && fate == Commits
      ensures var before := old(runtime);
              runtime == if pool !in before || fate == FailsBefore then before
                         else before[pool := before[pool].(
                                bootstrap := B.Row(before[pool].bootstrap.attempts, retryAt))]
    {
      if pool !in runtime || fate == FailsBefore {
        return false;
      }
      runtime := runtime[pool := runtime[pool].(bootstrap := runtime[pool].bootstrap.(retryAt := retryAt))];
      return fate == Commits;
    }

    method ResetBootstrap(pool: string, fate: Fate) returns (ok: bool)
      requires Valid()
      modifies this
      ensures Valid() && history == old(history) && incidents == old(incidents)
      ensures ok <==> pool in old(runtime) && fate == Commits
      ensures runtime == if pool !in old(runtime) || fate == FailsBefore then old(runtime)
                         else old(runtime)[pool := old(runtime)[pool].(bootstrap := B.Row(0, 0))]
    {
      if pool !in runtime || fate == FailsBefore {
        return false;
      }
      runtime := runtime[pool := runtime[pool].(bootstrap := B.Row(0, 0))];
      return fate == Commits;
    }
  }
}
