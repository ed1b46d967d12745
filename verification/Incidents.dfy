/** The incident table of one controller, and what it must be: the run-length encoding of
    the history of committed pass results. */
module Incidents {
  import opened Lifecycle

  datatype RunState = RunRunning | RunSucceeded | RunFailed

  datatype Failure = Failure(stage: Stage, code: FailureCode, message: string, instance: string, instanceName: string)

  datatype PoolResult = PoolResult(pool: string, runId: string, state: RunState, finishedAt: Time, failure: Failure)

  /** A row of `pool_incidents`; its ID is its position in the table plus one. */
  datatype Incident = Incident(
    pool: string,
    runId: string,
    stage: Stage,
    code: FailureCode,
    message: string,
    instance: string,
    instanceName: string,
    firstSeenAt: Time,
    lastSeenAt: Time,
    occurrences: nat,
    resolvedAt: Option<Time>)

  const MAX_INCIDENT_MESSAGE := 4096

  function Normalized(failure: Failure): Failure {
    failure.(
      stage := if failure.stage == NoStage then StageController else failure.stage,
      code := if failure.code == NoCode then Unknown else failure.code,
      message := if |failure.message| > MAX_INCIDENT_MESSAGE
                 then failure.message[..MAX_INCIDENT_MESSAGE] else failure.message)
  }

  predicate Open(i: Incident) {
    i.resolvedAt.None?
  }

  /** ID of the pool's open incident, or 0. */
  function OpenId(incidents: seq<Incident>, pool: string): (id: nat)
    ensures id <= |incidents|
    ensures id > 0 ==> incidents[id - 1].pool == pool && Open(incidents[id - 1])
    ensures forall k :: id <= k < |incidents| && incidents[k].pool == pool ==> !Open(incidents[k])
  {
    if incidents == [] then 0
    else if incidents[|incidents| - 1].pool == pool && Open(incidents[|incidents| - 1]) then |incidents|
    else
      var id := OpenId(incidents[..|incidents| - 1], pool);
      assert forall k :: 0 <= k < |incidents| - 1 ==> incidents[k] == incidents[..|incidents| - 1][k];
      id
  }

  function NewIncident(r: PoolResult): Incident {
    var f := Normalized(r.failure);
    Incident(r.pool, r.runId, f.stage, f.code, f.message, f.instance, f.instanceName,
             r.finishedAt, r.finishedAt, 1, None)
  }

  function SeenAgain(i: Incident, r: PoolResult): Incident {
    var f := Normalized(r.failure);
    i.(runId := r.runId, message := f.message, instance := f.instance, instanceName := f.instanceName,
       lastSeenAt := r.finishedAt, occurrences := i.occurrences + 1)
  }

  function Resolved(i: Incident, at: Time): Incident {
    i.(resolvedAt := Some(at))
  }

  predicate SameFailure(i: Incident, r: PoolResult) {
    i.stage == Normalized(r.failure).stage && i.code == Normalized(r.failure).code
  }

  /** The table after a failed pass, and the ID of the incident that is now open. */
  function Recorded(incidents: seq<Incident>, r: PoolResult): (seq<Incident>, nat) {
    var id := OpenId(incidents, r.pool);
    if id > 0 && SameFailure(incidents[id - 1], r) then
      (incidents[id - 1 := SeenAgain(incidents[id - 1], r)], id)
    else
      var closed := if id > 0 then incidents[id - 1 := Resolved(incidents[id - 1], r.finishedAt)] else incidents;
      (closed + [NewIncident(r)], |closed| + 1)
  }

  /** The table after a successful pass: every open incident of the pool is resolved. */
  function Cleared(incidents: seq<Incident>, pool: string, at: Time): seq<Incident> {
    seq(|incidents|, k requires 0 <= k < |incidents| =>
      if incidents[k].pool == pool && Open(incidents[k]) then Resolved(incidents[k], at) else incidents[k])
  }

  function Filed(incidents: seq<Incident>, r: PoolResult): seq<Incident> {
    if r.state == RunFailed then Recorded(incidents, r).0 else Cleared(incidents, r.pool, r.finishedAt)
  }

  // ---- the reference: run-length encoding of a history ----

  /** Failures outside any stage are the controller's own. */
  predicate Unstaged(stage: Stage) {
    stage == NoStage || stage == StageController
  }

  predicate Uncoded(code: FailureCode) {
    code == NoCode || code == Unknown
  }

  ghost predicate SameCause(a: PoolResult, b: PoolResult) {
    && a.state == RunFailed && b.state == RunFailed
    && (a.failure.stage == b.failure.stage || (Unstaged(a.failure.stage) && Unstaged(b.failure.stage)))
    && (a.failure.code == b.failure.code || (Uncoded(a.failure.code) && Uncoded(b.failure.code)))
  }

  /** Length of the maximal run of equal failures that the history starts with. */
  ghost function RunLength(h: seq<PoolResult>): (n: nat)
    requires |h| > 0
    ensures 1 <= n <= |h|
    ensures forall k :: 0 <= k < n - 1 ==> SameCause(h[k], h[k + 1])
    ensures n < |h| ==> !SameCause(h[n - 1], h[n])
  {
    if |h| > 1 && SameCause(h[0], h[1]) then
      var n := RunLength(h[1..]);
      assert forall k :: 0 < k < n ==> h[1..][k - 1] == h[k] && h[1..][k] == h[k + 1];
      1 + n
    else 1
  }

  /** The incident that stands for one run: its cause, where it was seen first and last, and
      what the last failure said, as far as there is room for it. */
  ghost function Summary(run: seq<PoolResult>, resolvedAt: Option<Time>): Incident
    requires |run| > 0
  {
    var first, last := run[0], run[|run| - 1];
    var message := last.failure.message;
    Incident(first.pool, last.runId,
             if Unstaged(first.failure.stage) then StageController else first.failure.stage,
             if Uncoded(first.failure.code) then Unknown else first.failure.code,
             if |message| <= 4096 then message else message[..4096],
             last.failure.instance, last.failure.instanceName,
             first.finishedAt, last.finishedAt, |run|, resolvedAt)
  }

  ghost function Encode(h: seq<PoolResult>): seq<Incident>
    decreases |h|
  {
    if h == [] then []
    else if h[0].state != RunFailed then Encode(h[1..])
    else
      var n := RunLength(h);
      [Summary(h[..n], if n < |h| then Some(h[n].finishedAt) else None)] + Encode(h[n..])
  }

  /** One pool's column of the table and one pool's part of the history, both in order. */
  ghost function Of(incidents: seq<Incident>, pool: string): seq<Incident> {
    if incidents == [] then []
    else
      var init := Of(incidents[..|incidents| - 1], pool);
      if incidents[|incidents| - 1].pool == pool then init + [incidents[|incidents| - 1]] else init
  }

  ghost function HistoryOf(history: seq<PoolResult>, pool: string): seq<PoolResult> {
    if history == [] then []
    else
      var init := HistoryOf(history[..|history| - 1], pool);
      if history[|history| - 1].pool == pool then init + [history[|history| - 1]] else init
  }

  /** What one more result does to the encoding: only its last entry is ever touched. */
  ghost function Absorb(code: seq<Incident>, r: PoolResult): seq<Incident> {
    var n := |code|;
    if n > 0 && Open(code[n - 1]) then
      if r.state != RunFailed then code[n - 1 := Resolved(code[n - 1], r.finishedAt)]
      else if SameFailure(code[n - 1], r) then code[n - 1 := SeenAgain(code[n - 1], r)]
      else code[n - 1 := Resolved(code[n - 1], r.finishedAt)] + [NewIncident(r)]
    else if r.state != RunFailed then code
    else code + [NewIncident(r)]
  }

  lemma AbsorbBehind(head: Incident, code: seq<Incident>, r: PoolResult)
    requires |code| > 0 || !Open(head)
    ensures Absorb([head] + code, r) == [head] + Absorb(code, r)
  {
    if |code| > 0 {
      assert ([head] + code)[|code|] == code[|code| - 1];
    }
  }

  lemma {:induction false} RunLengthAppend(h: seq<PoolResult>, r: PoolResult)
    requires |h| > 0
    ensures RunLength(h + [r]) ==
              if RunLength(h) == |h| && SameCause(h[|h| - 1], r) then |h| + 1 else RunLength(h)
  {
    var g := h + [r];
    if |h| == 1 {
      if SameCause(h[0], r) {
        assert g[1..] == [r];
      }
    } else if SameCause(h[0], h[1]) {
      assert g[1..] == h[1..] + [r];
      RunLengthAppend(h[1..], r);
    }
  }

  /** Encoding is incremental although runs are maximal and read from the front. */
  lemma {:induction false} EncodeAppend(h: seq<PoolResult>, r: PoolResult)
    ensures Encode(h + [r]) == Absorb(Encode(h), r)
    decreases |h|
  {
    var g := h + [r];
    if h == [] {
      EncodeOne(r);
    } else if h[0].state != RunFailed {
      assert g[1..] == h[1..] + [r];
      EncodeAppend(h[1..], r);
    } else {
      RunLengthAppend(h, r);
      var n := RunLength(h);
      if n < |h| {
        assert g[..n] == h[..n] && g[n..] == h[n..] + [r];
        EncodeAppend(h[n..], r);
        AbsorbBehind(Summary(h[..n], Some(h[n].finishedAt)), Encode(h[n..]), r);
      } else {
        assert h[..n] == h && h[n..] == [];
        EncodeLastRun(h, r);
      }
    }
  }

  lemma EncodeOne(r: PoolResult)
    ensures Encode([r]) == if r.state == RunFailed then [NewIncident(r)] else []
  {
    assert [r][..1] == [r] && [r][1..] == [];
  }

  /** The case of EncodeAppend where the whole history is one run. */
  lemma {:induction false} EncodeLastRun(h: seq<PoolResult>, r: PoolResult)
    requires |h| > 0 && h[0].state == RunFailed && RunLength(h) == |h|
    requires RunLength(h + [r]) == if SameCause(h[|h| - 1], r) then |h| + 1 else |h|
    ensures Encode(h + [r]) == Absorb([Summary(h, None)], r)
    ensures Encode(h) == [Summary(h, None)]
  {
    var g := h + [r];
    RunIsUniform(h, |h| - 1);
    assert h[..|h|] == h && h[|h|..] == [];
    SummaryAgain(h, r);
    hide Summary, NewIncident, SeenAgain, SameFailure;
    if SameCause(h[|h| - 1], r) {
      assert g[..|g|] == g && g[|g|..] == [];
    } else {
      assert g[..|h|] == h && g[|h|..] == [r];
      EncodeOne(r);
    }
  }

  /** One more result of a run, in terms of the run's incident. */
  lemma {:induction false} SummaryAgain(h: seq<PoolResult>, r: PoolResult)
    requires |h| > 0 && h[0].state == RunFailed && SameCause(h[0], h[|h| - 1])
    ensures r.state == RunFailed ==> (SameFailure(Summary(h, None), r) <==> SameCause(h[|h| - 1], r))
    ensures SameCause(h[|h| - 1], r) ==> SeenAgain(Summary(h, None), r) == Summary(h + [r], None)
    ensures Resolved(Summary(h, None), r.finishedAt) == Summary(h, Some(r.finishedAt))
    ensures Open(Summary(h, None))
  {}

  lemma {:induction false} RunIsUniform(h: seq<PoolResult>, k: nat)
    requires |h| > 0 && h[0].state == RunFailed && k < RunLength(h)
    ensures SameCause(h[0], h[k])
  {
    if k > 0 {
      RunIsUniform(h, k - 1);
      assert SameCause(h[k - 1], h[k]);
    }
  }

  // ---- what the encoding says about a history ----

  /** An incident as a reader of the table meets it. */
  ghost predicate Reports(i: Incident, r: PoolResult) {
    && i.pool == r.pool && i.stage != NoStage && i.code != NoCode
    && (r.failure.stage != NoStage ==> i.stage == r.failure.stage)
    && (r.failure.stage == NoStage ==> i.stage == StageController)
    && (r.failure.code != NoCode ==> i.code == r.failure.code)
    && (r.failure.code == NoCode ==> i.code == Unknown)
  }

  /** The failures an incident counts all had its stage and its code, it came first and last
      with the first and the last of them, and its message is the beginning of the last one. */
  lemma {:induction false} SummaryReports(h: seq<PoolResult>, resolvedAt: Option<Time>)
    requires |h| > 0 && h[0].state == RunFailed && RunLength(h) == |h|
    requires forall k :: 0 <= k < |h| ==> h[k].pool == h[0].pool
    ensures var i := Summary(h, resolvedAt);
            && (forall k :: 0 <= k < |h| ==> Reports(i, h[k]))
            && i.firstSeenAt == h[0].finishedAt && i.lastSeenAt == h[|h| - 1].finishedAt && i.occurrences == |h|
            && i.message <= h[|h| - 1].failure.message && |i.message| <= 4096
            && (|i.message| < 4096 ==> i.message == h[|h| - 1].failure.message)
  {
    forall k | 0 <= k < |h|
      ensures Reports(Summary(h, resolvedAt), h[k])
    {
      RunIsUniform(h, k);
    }
  }

  ghost function Occurrences(code: seq<Incident>): nat {
    if code == [] then 0 else code[0].occurrences + Occurrences(code[1..])
  }

  ghost function Failures(h: seq<PoolResult>): nat {
    if h == [] then 0 else (if h[0].state == RunFailed then 1 else 0) + Failures(h[1..])
  }

  lemma {:induction false} FailuresOfRun(h: seq<PoolResult>, n: nat)
    requires |h| > 0 && h[0].state == RunFailed && n <= RunLength(h)
    ensures Failures(h) == n + Failures(h[n..])
    decreases n
  {
    if n == 0 {
      assert h[0..] == h;
    } else {
      FailuresOfRun(h, n - 1);
      RunIsUniform(h, n - 1);
      assert h[n - 1..][1..] == h[n..];
    }
  }

  /** The incidents after the first run are those of the rest of the history. */
  lemma {:induction false} LaterIncidents(h: seq<PoolResult>)
    requires |h| > 0 && h[0].state == RunFailed
    ensures var n, code := RunLength(h), Encode(h);
            |code| == 1 + |Encode(h[n..])| && code[1..] == Encode(h[n..]) && (Open(code[0]) <==> n == |h|)
  {}

  /** The incident stands for the results from `a` to `b`, which are a maximal run. */
  ghost predicate StandsFor(i: Incident, h: seq<PoolResult>, a: nat, b: nat) {
    && a < b <= |h| && h[a].state == RunFailed
    && (a > 0 ==> !SameCause(h[a - 1], h[a]))
    && (b < |h| ==> !SameCause(h[b - 1], h[b]))
    && RunLength(h[a..b]) == b - a
    && i == Summary(h[a..b], if b < |h| then Some(h[b].finishedAt) else None)
  }

  lemma {:induction false} StandsLater(i: Incident, h: seq<PoolResult>, n: nat, a: nat, b: nat)
    requires 0 < n <= |h| && StandsFor(i, h[n..], a, b) && (n < |h| ==> !SameCause(h[n - 1], h[n]))
    ensures StandsFor(i, h, a + n, b + n)
  {
    SliceOfRest(h, n, a, b);
    hide Summary, SameCause, RunLength;
  }

  lemma SliceOfRest<T>(s: seq<T>, n: nat, a: nat, b: nat)
    requires n <= |s| && a <= b <= |s| - n
    ensures s[n..][a..b] == s[a + n..b + n]
  {}

  lemma {:induction false} FirstRun(h: seq<PoolResult>)
    requires |h| > 0 && h[0].state == RunFailed
    ensures StandsFor(Encode(h)[0], h, 0, RunLength(h))
  {
    RunOfPrefix(h, RunLength(h));
    assert h[0..RunLength(h)] == h[..RunLength(h)];
  }

  /** Every incident stands for a maximal run of failures of one cause. */
  lemma {:induction false} EncodedRun(h: seq<PoolResult>, k: nat) returns (a: nat, b: nat)
    requires k < |Encode(h)|
    ensures StandsFor(Encode(h)[k], h, a, b)
    decreases |h|
  {
    hide StandsFor, Summary, SameCause;
    if h[0].state != RunFailed {
      assert Encode(h) == Encode(h[1..]);
      hide Encode;
      a, b := EncodedRun(h[1..], k);
      SkippedResult(h, Encode(h)[k], a, b);
      a, b := a + 1, b + 1;
    } else if k == 0 {
      hide Encode;
      FirstRun(h);
      a, b := 0, RunLength(h);
    } else {
      hide Encode;
      var n := RunLength(h);
      LaterIncidents(h);
      a, b := EncodedRun(h[n..], k - 1);
      LaterRun(h, k, n, a, b);
      a, b := a + n, b + n;
    }
  }

  lemma {:induction false} SkippedResult(h: seq<PoolResult>, i: Incident, a: nat, b: nat)
    requires |h| > 0 && h[0].state != RunFailed && StandsFor(i, h[1..], a, b)
    ensures StandsFor(i, h, a + 1, b + 1)
  {
    StandsLater(i, h, 1, a, b);
  }

  lemma {:induction false} LaterRun(h: seq<PoolResult>, k: nat, n: nat, a: nat, b: nat)
    requires |h| > 0 && h[0].state == RunFailed && n == RunLength(h) && 0 < k < |Encode(h)|
    requires k <= |Encode(h[n..])| && StandsFor(Encode(h[n..])[k - 1], h[n..], a, b)
    ensures StandsFor(Encode(h)[k], h, a + n, b + n)
  {
    LaterIncidents(h);
    hide Encode, StandsFor, SameCause;
    assert Encode(h)[k] == Encode(h)[1..][k - 1];
    StandsLater(Encode(h)[k], h, n, a, b);
  }

  lemma {:induction false} RunOfPrefix(h: seq<PoolResult>, n: nat)
    requires |h| > 0 && 1 <= n <= RunLength(h)
    ensures RunLength(h[..n]) == n
  {
    if n > 1 {
      RunOfPrefix(h[1..], n - 1);
      assert h[..n][1..] == h[1..][..n - 1];
    }
  }

  /** No failed pass is lost or counted twice. */
  lemma {:induction false} OccurrencesCountFailures(h: seq<PoolResult>)
    ensures Occurrences(Encode(h)) == Failures(h)
    decreases |h|
  {
    if h != [] {
      if h[0].state != RunFailed {
        OccurrencesCountFailures(h[1..]);
      } else {
        var n := RunLength(h);
        FailuresOfRun(h, n);
        OccurrencesCountFailures(h[n..]);
        assert Encode(h)[1..] == Encode(h[n..]);
      }
    }
  }

  /** Every incident but the last is resolved. */
  lemma {:induction false} EarlierResolved(h: seq<PoolResult>, k: nat)
    requires k < |Encode(h)| - 1
    ensures !Open(Encode(h)[k])
    decreases |h|
  {
    if h[0].state != RunFailed {
      EarlierResolved(h[1..], k);
    } else {
      var n := RunLength(h);
      assert Encode(h)[1..] == Encode(h[n..]);
      if k > 0 {
        EarlierResolved(h[n..], k - 1);
      }
    }
  }

  ghost predicate LastOpen(code: seq<Incident>) {
    |code| > 0 && Open(code[|code| - 1])
  }

  ghost predicate LastFailed(h: seq<PoolResult>) {
    |h| > 0 && h[|h| - 1].state == RunFailed
  }

  /** A history that is one run of failures, and its one incident. */
  lemma {:induction false} OneRunOpen(h: seq<PoolResult>)
    requires |h| > 0 && h[0].state == RunFailed && RunLength(h) == |h|
    ensures LastOpen(Encode(h)) && LastFailed(h)
  {
    RunIsUniform(h, |h| - 1);
    LaterIncidents(h);
    assert h[|h|..] == [];
  }

  /** Otherwise the first run has no say in what is open. */
  lemma {:induction false} FirstRunClosed(h: seq<PoolResult>)
    requires |h| > 0 && h[0].state == RunFailed && RunLength(h) < |h|
    ensures LastOpen(Encode(h)) <==> LastOpen(Encode(h[RunLength(h)..]))
    ensures LastFailed(h) <==> LastFailed(h[RunLength(h)..])
  {
    LaterIncidents(h);
    var code, rest := Encode(h), h[RunLength(h)..];
    hide Encode, RunLength;
    assert |code| > 1 ==> code[1..][|code| - 2] == code[|code| - 1];
    assert rest[|rest| - 1] == h[|h| - 1];
  }

  /** An incident is open exactly when it is the last one and the last pass failed. */
  lemma {:induction false} OnlyLastFailureOpen(h: seq<PoolResult>)
    ensures LastOpen(Encode(h)) <==> LastFailed(h)
    decreases |h|
  {
    if h == [] {
    } else if h[0].state != RunFailed {
      OnlyLastFailureOpen(h[1..]);
    } else if RunLength(h) == |h| {
      OneRunOpen(h);
    } else {
      OnlyLastFailureOpen(h[RunLength(h)..]);
      FirstRunClosed(h);
    }
    hide RunLength, SameCause, Summary;
  }
}
