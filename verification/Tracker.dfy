/** The health tracker of the controller. Its fields are updated call by call; what they mean
    is said about the history of calls, and the snapshot, folded over Go maps in whatever
    order they iterate, is proved against a specification without any order. */
module Tracker {
  import opened Arithmetic
  import opened Lifecycle

  /** Counters are Go's uint64. */
  const WRAP := 0x1_0000_0000_0000_0000

  const MINIMUM_GRACE: Time := 30 * SECOND

  datatype Progress = Progress(pool: string, stage: string, startedAt: Time, deadlineAt: Time)

  datatype Slot = Slot(
    active: bool,
    attempted: bool,
    failed: bool,
    startedAt: Time,
    finishedAt: Time,
    lastSuccessAt: Time,
    deadlineAt: Time,
    nextExpectedAt: Time)

  const NEW_SLOT := Slot(false, false, false, 0, 0, 0, 0, 0)

  datatype Condition = Starting | Healthy | Degraded | Stalled

  datatype Snapshot = Snapshot(
    running: bool,
    condition: Condition,
    startedAt: Time,
    finishedAt: Time,
    lastSuccessAt: Time,
    deadlineAt: Time,
    nextExpectedAt: Time,
    activePools: nat,
    totalPools: nat,
    activeFailures: nat,
    errors: nat,
    progress: seq<Progress>)

  datatype Event =
    | Configured(pools: seq<string>, interval: Time)
    | PassStarted(pool: string, startedAt: Time, deadlineAt: Time)
    | Progressed(value: Progress)
    | PassFailed(pool: string, stage: string, code: string, at: Time)
    | PassSucceeded(pool: string, at: Time)

  // ---- what a history says ----

  predicate IsResult(e: Event, pool: string) {
    (e.PassFailed? || e.PassSucceeded?) && e.pool == pool
  }

  /** The latest result of a pool since the tracker was configured. */
  ghost function LatestResult(history: seq<Event>, pool: string): (r: Option<Event>)
    ensures r.Some? ==> IsResult(r.value, pool)
  {
    if history == [] then None
    else
      var last := history[|history| - 1];
      if last.Configured? then None
      else if IsResult(last, pool) then Some(last)
      else LatestResult(history[..|history| - 1], pool)
  }

  /** The start of a pool's pass that has no result yet. */
  ghost function Open(history: seq<Event>, pool: string): (r: Option<Event>)
    ensures r.Some? ==> r.value.PassStarted?
  {
    if history == [] then None
    else
      var last := history[|history| - 1];
      if last.Configured? || IsResult(last, pool) then None
      else if last.PassStarted? && last.pool == pool then Some(last)
      else Open(history[..|history| - 1], pool)
  }

  /** The progress last reported for a pool since its last result. */
  ghost function Reported(history: seq<Event>, pool: string): Option<Progress> {
    if history == [] then None
    else
      var last := history[|history| - 1];
      if last.Configured? || IsResult(last, pool) then None
      else if last.Progressed? && last.value.pool == pool then Some(last.value)
      else Reported(history[..|history| - 1], pool)
  }

  ghost predicate Member(history: seq<Event>, pool: string) {
    history != [] &&
    var last := history[|history| - 1];
    if last.Configured? then pool in last.pools
    else
      || ((last.PassStarted? || last.PassFailed? || last.PassSucceeded?) && last.pool == pool)
      || Member(history[..|history| - 1], pool)
  }

  ghost function Interval(history: seq<Event>): Time {
    if history == [] then 0
    else if history[|history| - 1].Configured? then history[|history| - 1].interval
    else Interval(history[..|history| - 1])
  }

  ghost predicate Good(result: Option<Event>) {
    result.Some? && result.value.PassSucceeded? && result.value.at != 0
  }

  /** Every pool's latest result is a success. */
  ghost predicate AllGood(history: seq<Event>) {
    && (exists p :: Member(history, p))
    && forall p :: Member(history, p) ==> Good(LatestResult(history, p))
  }

  /** The time of the latest success after which all pools stood successful. */
  ghost function LastSuccess(history: seq<Event>): Time {
    if history == [] then 0
    else
      var last := history[|history| - 1];
      if last.PassSucceeded? && AllGood(history) then last.at else LastSuccess(history[..|history| - 1])
  }

  function Cause(stage: string, code: string): string {
    stage + "\0" + code
  }

  ghost function Failures(history: seq<Event>): nat {
    if history == [] then 0
    else Failures(history[..|history| - 1]) + if history[|history| - 1].PassFailed? then 1 else 0
  }

  ghost function FailuresBy(history: seq<Event>, cause: string): nat {
    if history == [] then 0
    else
      var last := history[|history| - 1];
      FailuresBy(history[..|history| - 1], cause) +
      if last.PassFailed? && Cause(last.stage, last.code) == cause then 1 else 0
  }

  /** The failures with a given stage and code, by these two fields. */
  ghost function FailuresOf(history: seq<Event>, stage: string, code: string): nat {
    if history == [] then 0
    else
      var last := history[|history| - 1];
      FailuresOf(history[..|history| - 1], stage, code) +
      if last.PassFailed? && last.stage == stage && last.code == code then 1 else 0
  }

  predicate Plain(stage: string) {
    '\0' !in stage
  }

  lemma NoShorter(s1: string, c1: string, s2: string, c2: string)
    requires Plain(s2) && Cause(s1, c1) == Cause(s2, c2)
    ensures |s2| <= |s1|
  {
    assert Cause(s1, c1)[|s1|] == '\0';
    assert forall i :: 0 <= i < |s2| ==> Cause(s2, c2)[i] == s2[i];
  }

  /** Different causes have different counters, as long as no stage holds a NUL. */
  lemma CauseTells(s1: string, c1: string, s2: string, c2: string)
    requires Plain(s1) && Plain(s2) && Cause(s1, c1) == Cause(s2, c2)
    ensures s1 == s2 && c1 == c2
  {
    var k1, k2 := Cause(s1, c1), Cause(s2, c2);
    NoShorter(s1, c1, s2, c2);
    NoShorter(s2, c2, s1, c1);
    assert k1[..|s1|] == s1 && k2[..|s2|] == s2;
    assert k1[|s1| + 1..] == c1 && k2[|s2| + 1..] == c2;
  }

  /** Each counter counts the failures of its own stage and code. */
  lemma {:induction false} CountersPerCause(history: seq<Event>, stage: string, code: string)
    requires Plain(stage) && forall e :: e in history && e.PassFailed? ==> Plain(e.stage)
    ensures FailuresBy(history, Cause(stage, code)) == FailuresOf(history, stage, code)
  {
    if history != [] {
      var init, last := history[..|history| - 1], history[|history| - 1];
      CountersPerCause(init, stage, code);
      if last.PassFailed? && Cause(last.stage, last.code) == Cause(stage, code) {
        CauseTells(last.stage, last.code, stage, code);
      }
    }
  }

  /** A pool's fields as the history determines them. */
  ghost predicate Tells(history: seq<Event>, pool: string, slot: Slot) {
    var result, start := LatestResult(history, pool), Open(history, pool);
    && (slot.active <==> start.Some?)
    && (slot.attempted <==> result.Some?)
    && (slot.failed <==> result.Some? && result.value.PassFailed?)
    && slot.finishedAt == (if result.Some? then result.value.at else 0)
    && (slot.lastSuccessAt != 0 && !slot.failed <==> Good(result))
    && slot.deadlineAt == (if start.Some? then start.value.deadlineAt else 0)
    && (start.Some? ==> slot.startedAt == start.value.startedAt)
    && slot.nextExpectedAt == (if start.None? && result.Some? then result.value.at + Interval(history) else 0)
  }

  /** What one more event does to a pool's fields. */
  function Moved(slot: Slot, e: Event, pool: string, interval: Time): Slot {
    match e
    case PassStarted(p, startedAt, deadlineAt) =>
      if p != pool then slot
      else slot.(active := true, startedAt := startedAt, deadlineAt := deadlineAt, nextExpectedAt := 0)
    case PassFailed(p, _, _, at) =>
      if p != pool then slot
      else slot.(active := false, attempted := true, failed := true, finishedAt := at, deadlineAt := 0,
                 nextExpectedAt := at + interval)
    case PassSucceeded(p, at) =>
      if p != pool then slot
      else slot.(active := false, attempted := true, failed := false, finishedAt := at, lastSuccessAt := at,
                 deadlineAt := 0, nextExpectedAt := at + interval)
    case _ => slot
  }

  lemma ResultNext(history: seq<Event>, e: Event, pool: string)
    requires !e.Configured?
    ensures LatestResult(history + [e], pool) == if IsResult(e, pool) then Some(e) else LatestResult(history, pool)
    ensures Open(history + [e], pool) ==
              if IsResult(e, pool) then None
              else if e.PassStarted? && e.pool == pool then Some(e)
              else Open(history, pool)
    ensures Interval(history + [e]) == Interval(history)
  {
    assert (history + [e])[..|history|] == history;
  }

  lemma MovedTells(history: seq<Event>, e: Event, pool: string, slot: Slot)
    requires !e.Configured? && Tells(history, pool, slot)
    ensures Tells(history + [e], pool, Moved(slot, e, pool, Interval(history)))
  {
    ResultNext(history, e, pool);
    var moved := Moved(slot, e, pool, Interval(history));
    if IsResult(e, pool) {
      assert Tells(history + [e], pool, moved);
    } else if e.PassStarted? && e.pool == pool {
      assert Tells(history + [e], pool, moved);
    } else {
      assert moved == slot;
    }
  }

  lemma {:induction false} StrangerUntold(history: seq<Event>, pool: string)
    requires !Member(history, pool)
    ensures Tells(history, pool, NEW_SLOT)
  {
    if history != [] && !history[|history| - 1].Configured? {
      StrangerUntold(history[..|history| - 1], pool);
    }
  }

  lemma MemberNext(history: seq<Event>, e: Event, pool: string)
    requires !e.Configured?
    ensures Member(history + [e], pool) <==> Member(history, pool) || (!e.Progressed? && e.pool == pool)
  {
    assert (history + [e])[..|history|] == history;
  }

  lemma ReportedNext(history: seq<Event>, e: Event, pool: string)
    requires !e.Configured?
    ensures Reported(history + [e], pool) ==
              if IsResult(e, pool) then None
              else if e.Progressed? && e.value.pool == pool then Some(e.value)
              else Reported(history, pool)
  {
    assert (history + [e])[..|history|] == history;
  }

  /** How the fields tell the history of the pools. */
  ghost predicate PoolsTold(history: seq<Event>, interval: Time, pools: map<string, Slot>,
                            progress: map<string, Progress>) {
    && interval == Interval(history)
    && (forall p :: p in pools <==> Member(history, p))
    && (forall p :: p in pools ==> Tells(history, p, pools[p]))
    && (forall p :: p in progress <==> Reported(history, p).Some?)
    && (forall p :: p in progress ==> progress[p] == Reported(history, p).value)
  }

  function SlotOf(pools: map<string, Slot>, pool: string): Slot {
    if pool in pools then pools[pool] else NEW_SLOT
  }

  /** What one more event says of one pool. */
  lemma OneTold(history: seq<Event>, e: Event, interval: Time, pools: map<string, Slot>,
                progress: map<string, Progress>, p: string)
    requires PoolsTold(history, interval, pools, progress) && !e.Configured?
    ensures Member(history + [e], p) <==> p in pools || (!e.Progressed? && e.pool == p)
    ensures Tells(history + [e], p, Moved(SlotOf(pools, p), e, p, interval))
    ensures Reported(history + [e], p) ==
              if IsResult(e, p) then None
              else if e.Progressed? && e.value.pool == p then Some(e.value)
              else if p in progress then Some(progress[p])
              else None
  {
    MemberNext(history, e, p);
    ReportedNext(history, e, p);
    if p !in pools {
      StrangerUntold(history, p);
    }
    MovedTells(history, e, p, SlotOf(pools, p));
  }

  lemma ProgressTold(history: seq<Event>, e: Event, interval: Time, pools: map<string, Slot>,
                     progress: map<string, Progress>)
    requires PoolsTold(history, interval, pools, progress) && e.Progressed?
    ensures PoolsTold(history + [e], interval, pools, progress[e.value.pool := e.value])
  {
    ResultNext(history, e, "");
    hide Tells, Member, Reported, Interval;
    var next, after := history + [e], progress[e.value.pool := e.value];
    forall p
      ensures p in pools <==> Member(next, p)
      ensures p in pools ==> Tells(next, p, pools[p])
      ensures p in after <==> Reported(next, p).Some?
      ensures p in after ==> after[p] == Reported(next, p).value
    {
      OneTold(history, e, interval, pools, progress, p);
    }
  }

  lemma PassTold(history: seq<Event>, e: Event, interval: Time, pools: map<string, Slot>,
                 progress: map<string, Progress>)
    requires PoolsTold(history, interval, pools, progress) && !e.Configured? && !e.Progressed?
    ensures PoolsTold(history + [e], interval, pools[e.pool := Moved(SlotOf(pools, e.pool), e, e.pool, interval)],
                      if e.PassStarted? then progress else progress - {e.pool})
  {
    ResultNext(history, e, "");
    hide Tells, Member, Reported, Interval;
    var next, after := history + [e], pools[e.pool := Moved(SlotOf(pools, e.pool), e, e.pool, interval)];
    var left := if e.PassStarted? then progress else progress - {e.pool};
    forall p
      ensures p in after <==> Member(next, p)
      ensures p in after ==> Tells(next, p, after[p])
      ensures p in left <==> Reported(next, p).Some?
      ensures p in left ==> left[p] == Reported(next, p).value
    {
      OneTold(history, e, interval, pools, progress, p);
    }
  }

  /** How the counters tell the failures. */
  ghost predicate FailuresTold(history: seq<Event>, errors: nat, errorsBy: map<string, nat>) {
    && errors == Failures(history) % WRAP
    && (forall k :: Counter(errorsBy, k) == FailuresBy(history, k) % WRAP)
    && Sum(errorsBy) % WRAP == errors
  }

  lemma BumpedWraps(n: nat)
    ensures Bumped(n % WRAP) == (n + 1) % WRAP
  {}

  lemma CounterTold(history: seq<Event>, e: Event, errorsBy: map<string, nat>, k: string)
    requires e.PassFailed? && Counter(errorsBy, k) == FailuresBy(history, k) % WRAP
    ensures var cause := Cause(e.stage, e.code);
            Counter(errorsBy[cause := Bumped(Counter(errorsBy, cause))], k) == FailuresBy(history + [e], k) % WRAP
  {
    assert (history + [e])[..|history|] == history;
    BumpedWraps(FailuresBy(history, k));
  }

  lemma FailureTold(history: seq<Event>, e: Event, errors: nat, errorsBy: map<string, nat>)
    requires FailuresTold(history, errors, errorsBy) && e.PassFailed?
    ensures var cause := Cause(e.stage, e.code);
            FailuresTold(history + [e], Bumped(errors), errorsBy[cause := Bumped(Counter(errorsBy, cause))])
  {
    assert (history + [e])[..|history|] == history;
    BumpedWraps(Failures(history));
    BumpedWraps(Sum(errorsBy));
    SumBumped(errorsBy, Cause(e.stage, e.code));
    forall k {
      CounterTold(history, e, errorsBy, k);
    }
  }

  lemma OtherwiseTold(history: seq<Event>, e: Event, errors: nat, errorsBy: map<string, nat>)
    requires FailuresTold(history, errors, errorsBy) && !e.PassFailed?
    ensures FailuresTold(history + [e], errors, errorsBy)
  {
    assert (history + [e])[..|history|] == history;
  }

  lemma LastSuccessNext(history: seq<Event>, e: Event)
    ensures LastSuccess(history + [e]) ==
              if e.PassSucceeded? && AllGood(history + [e]) then e.at else LastSuccess(history)
  {
    assert (history + [e])[..|history|] == history;
  }

  // ---- sums of counters ----

  ghost function Sum(counters: map<string, nat>): nat
    decreases |counters|
  {
    if counters == map[] then 0
    else
      var k :| k in counters;
      counters[k] + Sum(counters - {k})
  }

  lemma {:induction false} SumSplits(counters: map<string, nat>, k: string)
    requires k in counters
    ensures Sum(counters) == counters[k] + Sum(counters - {k})
    decreases |counters|
  {
    var j :| j in counters && Sum(counters) == counters[j] + Sum(counters - {j});
    if j != k {
      SumSplits(counters - {j}, k);
      SumSplits(counters - {k}, j);
      assert counters - {j} - {k} == counters - {k} - {j};
    }
  }

  function Bumped(n: nat): nat {
    (n + 1) % WRAP
  }

  function Counter(counters: map<string, nat>, k: string): nat {
    if k in counters then counters[k] else 0
  }

  lemma SumBumped(counters: map<string, nat>, k: string)
    ensures Sum(counters[k := Bumped(Counter(counters, k))]) % WRAP == (Sum(counters) + 1) % WRAP
  {
    var after := counters[k := Bumped(Counter(counters, k))];
    SumSplits(after, k);
    assert after - {k} == counters - {k};
    if k in counters {
      SumSplits(counters, k);
    } else {
      assert counters - {k} == counters;
    }
  }

  // ---- the snapshot without an order ----

  function SetEarlier(current: Time, candidate: Time): Time {
    if candidate == 0 then current
    else if current == 0 || candidate < current then candidate
    else current
  }

  function Grace(interval: Time): Time {
    Max(2 * interval, MINIMUM_GRACE)
  }

  /** Two missed intervals, but never less than half a minute. */
  lemma GraceMeans(interval: Time)
    ensures Grace(interval) >= 30_000_000_000 && Grace(interval) >= interval + interval
    ensures Grace(interval) == 30_000_000_000 || Grace(interval) == interval + interval
  {}

  predicate Late(deadline: Time, now: Time) {
    deadline != 0 && now > deadline
  }

  predicate LateSlot(slot: Slot, now: Time, grace: Time) {
    if slot.active then Late(slot.deadlineAt, now)
    else slot.attempted && slot.nextExpectedAt != 0 && now > slot.nextExpectedAt + grace
  }

  ghost predicate SomeStalled(pools: map<string, Slot>, progress: map<string, Progress>, now: Time, grace: Time) {
    || (exists p :: p in pools && LateSlot(pools[p], now, grace))
    || (exists p :: p in progress && Late(progress[p].deadlineAt, now))
  }

  /** The times of which the snapshot shows the earliest; 0 is "not set". */
  function StartOf(slot: Slot): Time {
    if slot.active then slot.startedAt else 0
  }

  function DeadlineOf(slot: Slot): Time {
    if slot.active then slot.deadlineAt else 0
  }

  function ExpectedOf(slot: Slot): Time {
    if !slot.active && slot.attempted then slot.nextExpectedAt else 0
  }

  /** `t` is the earliest of the times that are set, and not set if none is. */
  ghost predicate Earliest<K>(t: Time, times: map<K, Time>, keys: set<K>)
    requires keys <= times.Keys
  {
    && (forall p :: p in keys && times[p] != 0 ==> t != 0 && t <= times[p])
    && (t != 0 ==> exists p :: p in keys && times[p] == t)
  }

  lemma EarliestOneMore<K>(t: Time, times: map<K, Time>, keys: set<K>, p: K)
    requires keys <= times.Keys && p in times && Earliest(t, times, keys)
    ensures Earliest(SetEarlier(t, times[p]), times, keys + {p})
  {
    var u := SetEarlier(t, times[p]);
    if u != 0 {
      if u == times[p] {
        assert p in keys + {p};
      } else {
        var q :| q in keys && times[q] == t;
        assert q in keys + {p};
      }
    }
  }

  /** The earliest of two groups is the earliest of their union. */
  ghost predicate Merged(t: Time, first: Time, progress: map<string, Progress>, keys: set<string>)
    requires keys <= progress.Keys
  {
    && (first != 0 ==> t != 0 && t <= first)
    && (forall p :: p in keys && progress[p].deadlineAt != 0 ==> t != 0 && t <= progress[p].deadlineAt)
    && (t != 0 ==> t == first || exists p :: p in keys && progress[p].deadlineAt == t)
  }

  lemma MergedOneMore(t: Time, first: Time, progress: map<string, Progress>, keys: set<string>, p: string)
    requires keys <= progress.Keys && p in progress && Merged(t, first, progress, keys)
    ensures Merged(SetEarlier(t, progress[p].deadlineAt), first, progress, keys + {p})
  {
    var u := SetEarlier(t, progress[p].deadlineAt);
    if u != 0 && u != first {
      if u == progress[p].deadlineAt {
        assert p in keys + {p};
      } else {
        var q :| q in keys && progress[q].deadlineAt == t;
        assert q in keys + {p};
      }
    }
  }

  ghost function Starts(pools: map<string, Slot>): map<string, Time> {
    map p | p in pools :: StartOf(pools[p])
  }

  ghost function Deadlines(pools: map<string, Slot>): map<string, Time> {
    map p | p in pools :: DeadlineOf(pools[p])
  }

  ghost function Expected(pools: map<string, Slot>): map<string, Time> {
    map p | p in pools :: ExpectedOf(pools[p])
  }

  /** `t` is the latest finish, and not set if none is. */
  ghost predicate LatestFinish(t: Time, pools: map<string, Slot>, keys: set<string>)
    requires keys <= pools.Keys
  {
    && t >= 0 && (forall p :: p in keys ==> pools[p].finishedAt <= t)
    && (t != 0 ==> exists p :: p in keys && pools[p].finishedAt == t)
  }

  lemma LatestOneMore(t: Time, pools: map<string, Slot>, keys: set<string>, p: string)
    requires keys <= pools.Keys && p in pools && LatestFinish(t, pools, keys)
    ensures LatestFinish(Max(pools[p].finishedAt, t), pools, keys + {p})
  {
    var u := Max(pools[p].finishedAt, t);
    if u != 0 {
      if u == pools[p].finishedAt {
        assert p in keys + {p};
      } else {
        var q :| q in keys && pools[q].finishedAt == t;
        assert q in keys + {p};
      }
    }
  }

  ghost function ActiveOf(pools: map<string, Slot>, keys: set<string>): set<string> {
    set p | p in keys && p in pools && pools[p].active
  }

  ghost function FailedOf(pools: map<string, Slot>, keys: set<string>): set<string> {
    set p | p in keys && p in pools && pools[p].failed
  }

  /** What the first loop has collected from the pools in `keys`. */
  ghost predicate Folded(s: Snapshot, pools: map<string, Slot>, keys: set<string>)
    requires keys <= pools.Keys
  {
    && s.activePools == |ActiveOf(pools, keys)|
    && s.activeFailures == |FailedOf(pools, keys)|
    && Earliest(s.startedAt, Starts(pools), keys)
    && Earliest(s.deadlineAt, Deadlines(pools), keys)
    && Earliest(s.nextExpectedAt, Expected(pools), keys)
    && LatestFinish(s.finishedAt, pools, keys)
  }

  lemma FoldedOneMore(before: Snapshot, after: Snapshot, pools: map<string, Slot>, keys: set<string>, p: string)
    requires keys <= pools.Keys && p in pools && p !in keys && Folded(before, pools, keys)
    requires after.activePools == before.activePools + if pools[p].active then 1 else 0
    requires after.activeFailures == before.activeFailures + if pools[p].failed then 1 else 0
    requires after.startedAt == SetEarlier(before.startedAt, StartOf(pools[p]))
    requires after.deadlineAt == SetEarlier(before.deadlineAt, DeadlineOf(pools[p]))
    requires after.nextExpectedAt == SetEarlier(before.nextExpectedAt, ExpectedOf(pools[p]))
    requires after.finishedAt == Max(pools[p].finishedAt, before.finishedAt)
    ensures Folded(after, pools, keys + {p})
  {
    EarliestOneMore(before.startedAt, Starts(pools), keys, p);
    EarliestOneMore(before.deadlineAt, Deadlines(pools), keys, p);
    EarliestOneMore(before.nextExpectedAt, Expected(pools), keys, p);
    LatestOneMore(before.finishedAt, pools, keys, p);
    CountsOneMore(pools, keys, p);
  }

  lemma NothingFolded(s: Snapshot, pools: map<string, Slot>)
    requires s.activePools == 0 && s.activeFailures == 0
    requires s.startedAt == 0 && s.deadlineAt == 0 && s.nextExpectedAt == 0 && s.finishedAt == 0
    ensures Folded(s, pools, pools.Keys - pools.Keys)
  {
    assert pools.Keys - pools.Keys == {};
  }

  lemma FoldedRest(pools: map<string, Slot>, rest: set<string>, p: string)
    requires rest <= pools.Keys && p in rest
    ensures pools.Keys - (rest - {p}) - {p} == pools.Keys - rest
    ensures pools.Keys - rest + {p} == pools.Keys - (rest - {p})
  {}

  lemma CountsOneMore(pools: map<string, Slot>, keys: set<string>, p: string)
    requires keys <= pools.Keys && p in pools && p !in keys
    ensures |ActiveOf(pools, keys + {p})| == |ActiveOf(pools, keys)| + if pools[p].active then 1 else 0
    ensures |FailedOf(pools, keys + {p})| == |FailedOf(pools, keys)| + if pools[p].failed then 1 else 0
  {
    ActiveOneMore(pools, keys, p);
    FailedOneMore(pools, keys, p);
  }

  lemma ActiveOneMore(pools: map<string, Slot>, keys: set<string>, p: string)
    requires keys <= pools.Keys && p in pools && p !in keys
    ensures |ActiveOf(pools, keys + {p})| == |ActiveOf(pools, keys)| + if pools[p].active then 1 else 0
  {
    assert ActiveOf(pools, keys + {p}) == ActiveOf(pools, keys) + if pools[p].active then {p} else {};
  }

  lemma FailedOneMore(pools: map<string, Slot>, keys: set<string>, p: string)
    requires keys <= pools.Keys && p in pools && p !in keys
    ensures |FailedOf(pools, keys + {p})| == |FailedOf(pools, keys)| + if pools[p].failed then 1 else 0
  {
    assert FailedOf(pools, keys + {p}) == FailedOf(pools, keys) + if pools[p].failed then {p} else {};
  }

  /** Everything in a snapshot but the condition. */
  ghost predicate Describes(s: Snapshot, pools: map<string, Slot>, progress: map<string, Progress>, errors: nat,
                            lastSuccess: Time) {
    && s.totalPools == |pools| && s.errors == errors && s.lastSuccessAt == lastSuccess
    && (s.running <==> s.activePools > 0)
    && (exists t :: Folded(s.(deadlineAt := t), pools, pools.Keys) && Merged(s.deadlineAt, t, progress, progress.Keys))
    && |s.progress| == |progress| && (forall x :: x in s.progress <==> exists p :: p in progress && progress[p] == x)
  }

  lemma DescribedWhole(s: Snapshot, t: Time, pools: map<string, Slot>, progress: map<string, Progress>, errors: nat,
                       lastSuccess: Time)
    requires s.totalPools == |pools| && s.errors == errors && s.lastSuccessAt == lastSuccess
    requires s.running <==> s.activePools > 0
    requires Folded(s.(deadlineAt := t), pools, pools.Keys) && Merged(s.deadlineAt, t, progress, progress.Keys)
    requires |s.progress| == |progress|
    requires forall x :: x in s.progress <==> exists p :: p in progress && progress[p] == x
    ensures Describes(s, pools, progress, errors, lastSuccess)
    ensures forall c :: Describes(s.(condition := c), pools, progress, errors, lastSuccess)
  {
    forall c
      ensures Describes(s.(condition := c), pools, progress, errors, lastSuccess)
    {
      var u := s.(condition := c);
      assert Folded(u.(deadlineAt := t), pools, pools.Keys);
    }
  }

  /** The condition as a function of what the snapshot itself shows. */
  function ConditionOf(s: Snapshot, now: Time, grace: Time, someUnattempted: bool): Condition {
    if Late(s.deadlineAt, now) || (s.nextExpectedAt != 0 && now > s.nextExpectedAt + grace) then Stalled
    else if s.activeFailures > 0 then Degraded
    else if someUnattempted then Starting
    else Healthy
  }

  /** Some pool or progress is late exactly when the earliest times shown are. */
  lemma StalledShows(s: Snapshot, pools: map<string, Slot>, progress: map<string, Progress>, errors: nat,
                     lastSuccess: Time, now: Time, grace: Time)
    requires Describes(s, pools, progress, errors, lastSuccess)
    ensures SomeStalled(pools, progress, now, grace) <==>
              Late(s.deadlineAt, now) || (s.nextExpectedAt != 0 && now > s.nextExpectedAt + grace)
    ensures s.activeFailures > 0 <==> exists p :: p in pools && pools[p].failed
  {
    var t :| Folded(s.(deadlineAt := t), pools, pools.Keys) && Merged(s.deadlineAt, t, progress, progress.Keys);
    DeadlineShows(s.deadlineAt, t, pools, progress, now);
    ExpectedShows(s.nextExpectedAt, pools, now, grace);
    assert SomeStalled(pools, progress, now, grace) <==>
           || (exists p :: p in pools && pools[p].active && Late(pools[p].deadlineAt, now))
           || (exists p :: p in pools && Overdue(pools[p], now, grace))
           || (exists p :: p in progress && Late(progress[p].deadlineAt, now));
    FailuresShow(pools);
  }

  lemma FailuresShow(pools: map<string, Slot>)
    ensures |FailedOf(pools, pools.Keys)| > 0 <==> exists p :: p in pools && pools[p].failed
  {
    if p :| p in pools && pools[p].failed {
      assert p in FailedOf(pools, pools.Keys);
    }
    if |FailedOf(pools, pools.Keys)| > 0 {
      var p :| p in FailedOf(pools, pools.Keys);
    }
  }

  lemma DeadlineShows(shown: Time, t: Time, pools: map<string, Slot>, progress: map<string, Progress>, now: Time)
    requires Earliest(t, Deadlines(pools), pools.Keys) && Merged(shown, t, progress, progress.Keys)
    ensures Late(shown, now) <==>
              || (exists p :: p in pools && pools[p].active && Late(pools[p].deadlineAt, now))
              || (exists p :: p in progress && Late(progress[p].deadlineAt, now))
  {
    var deadlines := Deadlines(pools);
    if p :| p in pools && pools[p].active && Late(pools[p].deadlineAt, now) {
      assert deadlines[p] == pools[p].deadlineAt;
    }
    if Late(shown, now) && shown == t {
      var p :| p in pools.Keys && deadlines[p] == t;
      assert pools[p].active && Late(pools[p].deadlineAt, now);
    }
  }

  predicate Overdue(slot: Slot, now: Time, grace: Time) {
    !slot.active && slot.attempted && slot.nextExpectedAt != 0 && now > slot.nextExpectedAt + grace
  }

  lemma ExpectedShows(shown: Time, pools: map<string, Slot>, now: Time, grace: Time)
    requires Earliest(shown, Expected(pools), pools.Keys)
    ensures (shown != 0 && now > shown + grace) <==> exists p :: p in pools && Overdue(pools[p], now, grace)
  {
    var expected := Expected(pools);
    if p :| p in pools && Overdue(pools[p], now, grace) {
      assert expected[p] == pools[p].nextExpectedAt;
    }
    if shown != 0 && now > shown + grace {
      var p :| p in pools.Keys && expected[p] == shown;
      assert Overdue(pools[p], now, grace);
    }
  }

  // ---- the tracker ----

  class Tracker {
    var interval: Time
    var pools: map<string, Slot>
    var progress: map<string, Progress>
    var errors: nat
    var errorsBy: map<string, nat>
    var lastSuccess: Time
    ghost var history: seq<Event>

    ghost predicate Valid()
      reads this
    {
      && PoolsTold(history, interval, pools, progress)
      && FailuresTold(history, errors, errorsBy)
      && lastSuccess == LastSuccess(history)
    }

    constructor ()
      ensures Valid() && history == []
    {
      interval, pools, progress, errors, errorsBy, lastSuccess, history := 0, map[], map[], 0, map[], 0, [];
    }

    method Configure(names: seq<string>, interval: Time)
      requires Valid()
      modifies this
      ensures Valid() && history == old(history) + [Configured(names, interval)]
    {
      this.interval := interval;
      pools := map[];
      for k := 0 to |names|
        invariant forall p :: p in pools <==> p in names[..k]
        invariant forall p :: p in pools ==> pools[p] == NEW_SLOT
        invariant unchanged(`errors, `errorsBy, `lastSuccess, `history) && this.interval == interval
      {
        pools := pools[names[k] := NEW_SLOT];
      }
      progress := map[];
      assert names[..|names|] == names;
      OtherwiseTold(history, Configured(names, interval), errors, errorsBy);
      LastSuccessNext(history, Configured(names, interval));
      history := history + [Configured(names, interval)];
    }

    method PoolStart(pool: string, startedAt: Time, deadlineAt: Time)
      requires Valid()
      modifies this
      ensures Valid() && history == old(history) + [PassStarted(pool, startedAt, deadlineAt)]
    {
      ghost var e := PassStarted(pool, startedAt, deadlineAt);
      PassTold(history, e, interval, pools, progress);
      OtherwiseTold(history, e, errors, errorsBy);
      LastSuccessNext(history, e);
      var slot := SlotOf(pools, pool);
      pools := pools[pool := slot.(active := true, startedAt := startedAt, deadlineAt := deadlineAt,
                                   nextExpectedAt := 0)];
      history := history + [e];
    }

    method SetProgress(value: Progress)
      requires Valid()
      modifies this
      ensures Valid() && history == old(history) + [Progressed(value)]
    {
      ProgressTold(history, Progressed(value), interval, pools, progress);
      OtherwiseTold(history, Progressed(value), errors, errorsBy);
      LastSuccessNext(history, Progressed(value));
      progress := progress[value.pool := value];
      history := history + [Progressed(value)];
    }

    method PoolFailure(pool: string, stage: string, code: string, at: Time)
      requires Valid()
      modifies this
      ensures Valid() && history == old(history) + [PassFailed(pool, stage, code, at)]
    {
      hide PoolsTold, FailuresTold, AllGood, LastSuccess;
      ghost var e := PassFailed(pool, stage, code, at);
      PassTold(history, e, interval, pools, progress);
      FailureTold(history, e, errors, errorsBy);
      LastSuccessNext(history, e);
      errors := Bumped(errors);
      errorsBy := errorsBy[Cause(stage, code) := Bumped(Counter(errorsBy, Cause(stage, code)))];

      var slot := SlotOf(pools, pool);
      pools := pools[pool := slot.(active := false, attempted := true, failed := true,
        finishedAt := at, deadlineAt := 0, nextExpectedAt := at + interval)];
      progress := progress - {pool};
      history := history + [e];
    }

    method PoolSuccess(pool: string, at: Time)
      requires Valid()
      modifies this
      ensures Valid() && history == old(history) + [PassSucceeded(pool, at)]
    {
      hide PoolsTold, FailuresTold, AllGood, LastSuccess;
      ghost var e := PassSucceeded(pool, at);
      PassTold(history, e, interval, pools, progress);
      OtherwiseTold(history, e, errors, errorsBy);
      LastSuccessNext(history, e);
      var slot := SlotOf(pools, pool);
      pools := pools[pool := slot.(active := false, attempted := true, failed := false,
        finishedAt := at, lastSuccessAt := at, deadlineAt := 0, nextExpectedAt := at + interval)];
      progress := progress - {pool};
      history := history + [e];
      var all := AllSucceeded();
      if all {
        lastSuccess := at;
      }
    }

    method AllSucceeded() returns (all: bool)
      requires PoolsTold(history, interval, pools, progress)
      ensures all <==> AllGood(history)
    {
      if |pools| == 0 {
        assert forall p :: p !in pools;
        return false;
      }
      var rest := pools.Keys;
      while rest != {}
        invariant rest <= pools.Keys
        invariant forall p :: p in pools && p !in rest ==> Good(LatestResult(history, p))
      {
        var p: string :| p in rest;
        rest := rest - {p};
        assert Tells(history, p, pools[p]);
        if pools[p].failed || pools[p].lastSuccessAt == 0 {
          return false;
        }
      }
      return true;
    }

    // ---- the snapshot ----

    /** The condition, found by the first loop that returns. */
    method FindCondition(now: Time, allAttempted: bool) returns (condition: Condition)
      ensures condition == Stalled <==> SomeStalled(pools, progress, now, Grace(interval))
      ensures condition == Degraded <==>
                !SomeStalled(pools, progress, now, Grace(interval)) && exists p :: p in pools && pools[p].failed
      ensures condition == Starting <==>
                && !SomeStalled(pools, progress, now, Grace(interval))
                && (forall p :: p in pools ==> !pools[p].failed)
                && !allAttempted && |pools| > 0
    {
      var grace := Grace(interval);
      var rest := pools.Keys;
      while rest != {}
        invariant rest <= pools.Keys
        invariant forall p :: p in pools && p !in rest ==> !LateSlot(pools[p], now, grace)
      {
        var p: string :| p in rest;
        rest := rest - {p};
        if LateSlot(pools[p], now, grace) {
          return Stalled;
        }
      }
      rest := progress.Keys;
      while rest != {}
        invariant rest <= progress.Keys
        invariant forall p :: p in progress && p !in rest ==> !Late(progress[p].deadlineAt, now)
      {
        var p: string :| p in rest;
        rest := rest - {p};
        if Late(progress[p].deadlineAt, now) {
          return Stalled;
        }
      }
      rest := pools.Keys;
      while rest != {}
        invariant rest <= pools.Keys
        invariant forall p :: p in pools && p !in rest ==> !pools[p].failed
      {
        var p: string :| p in rest;
        rest := rest - {p};
        if pools[p].failed {
          return Degraded;
        }
      }
      if !allAttempted && |pools| > 0 {
        return Starting;
      }
      return Healthy;
    }

    /** One turn of the loop over the pools. */
    static method FoldSlot(before: Snapshot, slot: Slot) returns (s: Snapshot)
      ensures s == before.(
                activePools := before.activePools + if slot.active then 1 else 0,
                activeFailures := before.activeFailures + if slot.failed then 1 else 0,
                startedAt := SetEarlier(before.startedAt, StartOf(slot)),
                deadlineAt := SetEarlier(before.deadlineAt, DeadlineOf(slot)),
                nextExpectedAt := SetEarlier(before.nextExpectedAt, ExpectedOf(slot)),
                finishedAt := Max(slot.finishedAt, before.finishedAt))
    {
      s := before;
      if slot.active {
        s := s.(activePools := s.activePools + 1,
                startedAt := SetEarlier(s.startedAt, slot.startedAt),
                deadlineAt := SetEarlier(s.deadlineAt, slot.deadlineAt));
      } else if slot.attempted {
        s := s.(nextExpectedAt := SetEarlier(s.nextExpectedAt, slot.nextExpectedAt));
      }
      if slot.finishedAt > s.finishedAt {
        s := s.(finishedAt := slot.finishedAt);
      }
      if slot.failed {
        s := s.(activeFailures := s.activeFailures + 1);
      }
    }

    /** The loop over the pools. */
    method FoldPools() returns (s: Snapshot, allAttempted: bool)
      ensures Folded(s, pools, pools.Keys)
      ensures s.progress == [] && s.totalPools == |pools| && s.errors == errors && s.lastSuccessAt == lastSuccess
      ensures allAttempted <==> |pools| > 0 && forall p :: p in pools ==> pools[p].attempted
    {
      hide Folded;
      s := Snapshot(false, Healthy, 0, 0, lastSuccess, 0, 0, 0, |pools|, 0, errors, []);
      allAttempted := |pools| > 0;
      var rest := pools.Keys;
      NothingFolded(s, pools);
      while rest != {}
        invariant rest <= pools.Keys && Folded(s, pools, pools.Keys - rest)
        invariant s.progress == [] && s.totalPools == |pools| && s.errors == errors && s.lastSuccessAt == lastSuccess
        invariant allAttempted <==> |pools| > 0 && forall p :: p in pools && p !in rest ==> pools[p].attempted
      {
        var p: string :| p in rest;
        FoldedRest(pools, rest, p);
        rest := rest - {p};
        ghost var before := s;
        s := FoldSlot(s, pools[p]);
        FoldedOneMore(before, s, pools, pools.Keys - rest - {p}, p);
        if !pools[p].attempted {
          allAttempted := false;
        }
      }
      assert pools.Keys - rest == pools.Keys;
    }

    /** The loop over the progress of the pools. */
    method FoldProgress(first: Time) returns (deadlineAt: Time, list: seq<Progress>)
      ensures Merged(deadlineAt, first, progress, progress.Keys)
      ensures |list| == |progress| && forall x :: x in list <==> exists p :: p in progress && progress[p] == x
    {
      deadlineAt, list := first, [];
      ghost var seen: set<string> := {};
      var rest := progress.Keys;
      while rest != {}
        invariant rest !! seen && rest + seen == progress.Keys
        invariant Merged(deadlineAt, first, progress, seen)
        invariant |list| == |seen| && forall x :: x in list <==> exists p :: p in seen && progress[p] == x
      {
        var p: string :| p in rest;
        rest := rest - {p};
        MergedOneMore(deadlineAt, first, progress, seen, p);
        list := list + [progress[p]];
        deadlineAt := SetEarlier(deadlineAt, progress[p].deadlineAt);
        seen := seen + {p};
      }
      assert seen == progress.Keys;
    }

    /** The snapshot of the tracker, and a condition that agrees with what it shows. */
    method TakeSnapshot(now: Time) returns (s: Snapshot)
      ensures Describes(s, pools, progress, errors, lastSuccess)
      ensures s.condition == ConditionOf(s, now, Grace(interval), exists p :: p in pools && !pools[p].attempted)
    {
      var allAttempted;
      s, allAttempted := FoldPools();
      ghost var byPools := s.deadlineAt;
      var deadlineAt, list := FoldProgress(s.deadlineAt);
      s := s.(deadlineAt := deadlineAt, progress := list, running := s.activePools > 0);
      var condition := FindCondition(now, allAttempted);
      DescribedWhole(s, byPools, pools, progress, errors, lastSuccess);
      StalledShows(s, pools, progress, errors, lastSuccess, now, Grace(interval));
      s := s.(condition := condition);
    }
  }
}
