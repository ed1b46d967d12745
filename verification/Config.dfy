/** The configuration facts that routing and isolation rest on, and what they give: a job
    counts for at most one pool, and no two pools describe their runners alike. */
module Config {

  const MAX_NAME_LENGTH := 40

  datatype Pool = Pool(name: string, labels: seq<string>)

  predicate NameChar(c: char) {
    'a' <= c <= 'z' || '0' <= c <= '9' || c == '-'
  }

  /** The character has an ASCII code between the two. */
  predicate Ascii(c: char, from: int, to: int) {
    from <= c as int <= to
  }

  ghost predicate ValidName(value: string) {
    && 0 < |value| <= MAX_NAME_LENGTH
    && value[0] != '-' && value[|value| - 1] != '-'
    && forall k :: 0 <= k < |value| ==> NameChar(value[k])
  }

  method CheckName(value: string) returns (ok: bool)
    ensures ok <==> ValidName(value)
    ensures ok <==>
              && 1 <= |value| <= 40 && value[0] != '-' && value[|value| - 1] != '-'
              && forall k :: 0 <= k < |value| ==> Ascii(value[k], 97, 122) || Ascii(value[k], 48, 57) || value[k] == '-'
  {
    if value == "" || |value| > MAX_NAME_LENGTH || value[0] == '-' || value[|value| - 1] == '-' {
      return false;
    }
    for k := 0 to |value|
      invariant forall j :: 0 <= j < k ==> NameChar(value[j])
    {
      if !NameChar(value[k]) {
        return false;
      }
    }
    return true;
  }

  /** Unicode white space, which `strings.TrimSpace` removes. */
  predicate IsSpace(c: char) {
    var code := c as int;
    || 9 <= code <= 13 || code == 0x20 || code == 0x85 || code == 0xA0 || code == 0x1680
    || 0x2000 <= code <= 0x200A || code == 0x2028 || code == 0x2029 || code == 0x202F
    || code == 0x205F || code == 0x3000
  }

  lemma PlainSpaces(c: char)
    requires c as int < 128
    ensures IsSpace(c) <==> c as int in {9, 10, 11, 12, 13, 32}
  {}

  /** `strings.TrimSpace`. */
  function TrimSpace(text: string): string {
    if text == "" then ""
    else if IsSpace(text[0]) then TrimSpace(text[1..])
    else if IsSpace(text[|text| - 1]) then TrimSpace(text[..|text| - 1])
    else text
  }

  predicate LabelText(text: string) {
    (exists k | 0 <= k < |text| :: !IsSpace(text[k])) && ':' !in text
  }

  /** Not empty once surrounding white space is removed, and without a colon. */
  lemma LabelTextMeans(text: string)
    ensures LabelText(text) <==> TrimSpace(text) != "" && forall k :: 0 <= k < |text| ==> text[k] != ':'
  {
    TrimsToNothing(text);
  }

  lemma {:induction false} TrimsToNothing(text: string)
    ensures TrimSpace(text) == "" <==> forall k :: 0 <= k < |text| ==> IsSpace(text[k])
    decreases |text|
  {
    if text != "" {
      if IsSpace(text[0]) {
        TrimsToNothing(text[1..]);
        assert forall k :: 0 < k < |text| ==> text[k] == text[1..][k - 1];
      } else if IsSpace(text[|text| - 1]) {
        TrimsToNothing(text[..|text| - 1]);
      }
    }
  }

  ghost predicate ValidPool(pool: Pool) {
    && ValidName(pool.name)
    && |pool.labels| > 0
    && (forall k :: 0 <= k < |pool.labels| ==> LabelText(pool.labels[k]))
    && (forall j, k :: 0 <= j < k < |pool.labels| ==> pool.labels[j] != pool.labels[k])
  }

  method CheckPool(pool: Pool) returns (ok: bool)
    ensures ok <==> ValidPool(pool)
  {
    var named := CheckName(pool.name);
    if !named || |pool.labels| == 0 {
      return false;
    }
    var seen: set<string> := {};
    for k := 0 to |pool.labels|
      invariant forall j :: 0 <= j < k ==> LabelText(pool.labels[j])
      invariant forall i, j :: 0 <= i < j < k ==> pool.labels[i] != pool.labels[j]
      invariant forall l :: l in seen <==> exists j :: 0 <= j < k && pool.labels[j] == l
    {
      if !LabelText(pool.labels[k]) || pool.labels[k] in seen {
        return false;
      }
      seen := seen + {pool.labels[k]};
    }
    return true;
  }

  ghost predicate ValidPools(pools: seq<Pool>) {
    && |pools| > 0
    && (forall k :: 0 <= k < |pools| ==> ValidPool(pools[k]))
    && (forall j, k :: 0 <= j < k < |pools| ==>
          pools[j].name != pools[k].name && pools[j].labels[0] != pools[k].labels[0])
  }

  /** The pool part of `Validate`: valid pools, unique names, unique primary labels. */
  method Validate(pools: seq<Pool>) returns (ok: bool)
    ensures ok <==> ValidPools(pools)
  {
    hide ValidName, LabelText;
    if |pools| == 0 {
      return false;
    }
    var names: set<string>, primaries: set<string> := {}, {};
    for k := 0 to |pools|
      invariant forall j :: 0 <= j < k ==> ValidPool(pools[j])
      invariant forall i, j :: 0 <= i < j < k ==>
                  pools[i].name != pools[j].name && pools[i].labels[0] != pools[j].labels[0]
      invariant forall n :: n in names <==> exists j :: 0 <= j < k && pools[j].name == n
      invariant forall l :: l in primaries <==> exists j :: 0 <= j < k && pools[j].labels[0] == l
    {
      var valid := CheckPool(pools[k]);
      if !valid {
        return false;
      }
      if pools[k].name in names || pools[k].labels[0] in primaries {
        return false;
      }
      names := names + {pools[k].name};
      primaries := primaries + {pools[k].labels[0]};
    }
    return true;
  }

  // ---- routing ----

  datatype Job = Job(waiting: bool, runsOn: seq<string>)

  /** The job names the pool's first label first and requests every pool label. */
  ghost predicate Routes(poolLabels: seq<string>, jobLabels: seq<string>) {
    && |poolLabels| > 0 && |jobLabels| > 0
    && poolLabels[0] == jobLabels[0]
    && forall k :: 0 <= k < |poolLabels| ==> poolLabels[k] in jobLabels
  }

  method Matches(poolLabels: seq<string>, jobLabels: seq<string>) returns (ok: bool)
    ensures ok <==> Routes(poolLabels, jobLabels)
  {
    if |poolLabels| == 0 || |jobLabels| == 0 || poolLabels[0] != jobLabels[0] {
      return false;
    }
    var jobSet: set<string> := {};
    for k := 0 to |jobLabels|
      invariant forall l :: l in jobSet <==> l in jobLabels[..k]
    {
      jobSet := jobSet + {jobLabels[k]};
    }
    assert jobLabels[..|jobLabels|] == jobLabels;
    for k := 0 to |poolLabels|
      invariant forall j :: 0 <= j < k ==> poolLabels[j] in jobLabels
    {
      if poolLabels[k] !in jobSet {
        return false;
      }
    }
    return true;
  }

  ghost predicate Counts(pool: Pool, job: Job) {
    job.waiting && Routes(pool.labels, job.runsOn)
  }

  ghost function Waiting(pool: Pool, jobs: seq<Job>): nat {
    if jobs == [] then 0
    else Waiting(pool, jobs[..|jobs| - 1]) + if Counts(pool, jobs[|jobs| - 1]) then 1 else 0
  }

  method CountWaiting(pool: Pool, jobs: seq<Job>) returns (waiting: nat)
    ensures waiting == Waiting(pool, jobs)
  {
    waiting := 0;
    for k := 0 to |jobs|
      invariant waiting == Waiting(pool, jobs[..k])
    {
      assert jobs[..k + 1][..k] == jobs[..k];
      if jobs[k].waiting {
        var ok := Matches(pool.labels, jobs[k].runsOn);
        if ok {
          waiting := waiting + 1;
        }
      }
    }
    assert jobs[..|jobs|] == jobs;
  }

  /** A job is routed to at most one pool of an accepted configuration. */
  lemma OnePoolPerJob(pools: seq<Pool>, job: Job, j: nat, k: nat)
    requires ValidPools(pools) && j < |pools| && k < |pools|
    requires Counts(pools[j], job) && Counts(pools[k], job)
    ensures j == k
  {}

  ghost function TotalWaiting(pools: seq<Pool>, jobs: seq<Job>): nat {
    if pools == [] then 0 else TotalWaiting(pools[..|pools| - 1], jobs) + Waiting(pools[|pools| - 1], jobs)
  }

  ghost function WaitingJobs(jobs: seq<Job>): nat {
    if jobs == [] then 0 else WaitingJobs(jobs[..|jobs| - 1]) + if jobs[|jobs| - 1].waiting then 1 else 0
  }

  /** One job's share of the total: the pools that count it, of which there is at most one. */
  ghost function Share(pools: seq<Pool>, job: Job): nat {
    if pools == [] then 0 else Share(pools[..|pools| - 1], job) + if Counts(pools[|pools| - 1], job) then 1 else 0
  }

  ghost predicate Disjoint(pools: seq<Pool>) {
    forall j, k, job :: 0 <= j < k < |pools| && Counts(pools[j], job) ==> !Counts(pools[k], job)
  }

  lemma {:induction false} ShareAtMostOne(pools: seq<Pool>, job: Job)
    requires Disjoint(pools)
    ensures Share(pools, job) <= if job.waiting then 1 else 0
    ensures Share(pools, job) > 0 ==> exists k :: 0 <= k < |pools| && Counts(pools[k], job)
  {
    if pools != [] {
      var init := pools[..|pools| - 1];
      assert Disjoint(init) by {
        forall j, k, i | 0 <= j < k < |init| && Counts(init[j], i) ensures !Counts(init[k], i) {
          assert Counts(pools[j], i);
        }
      }
      ShareAtMostOne(init, job);
      if Share(init, job) > 0 {
        var k :| 0 <= k < |init| && Counts(init[k], job);
        assert Counts(pools[k], job);
      }
      if Counts(pools[|pools| - 1], job) {
        assert Share(init, job) == 0;
      }
    }
  }

  lemma {:induction false} TotalAppend(pools: seq<Pool>, jobs: seq<Job>)
    requires jobs != []
    ensures TotalWaiting(pools, jobs) == TotalWaiting(pools, jobs[..|jobs| - 1]) + Share(pools, jobs[|jobs| - 1])
  {
    if pools != [] {
      TotalAppend(pools[..|pools| - 1], jobs);
    }
  }

  lemma {:induction false} TotalOfNoJobs(pools: seq<Pool>)
    ensures TotalWaiting(pools, []) == 0
  {
    if pools != [] {
      TotalOfNoJobs(pools[..|pools| - 1]);
    }
  }

  lemma {:induction false} TotalBound(pools: seq<Pool>, jobs: seq<Job>)
    requires Disjoint(pools)
    ensures TotalWaiting(pools, jobs) <= WaitingJobs(jobs)
  {
    if jobs == [] {
      TotalOfNoJobs(pools);
    } else {
      TotalBound(pools, jobs[..|jobs| - 1]);
      TotalAppend(pools, jobs);
      ShareAtMostOne(pools, jobs[|jobs| - 1]);
    }
  }

  /** Demand is counted once: summed over all pools, a shared job list asks for no more VMs
      than it has waiting jobs. */
  lemma DemandCountedOnce(pools: seq<Pool>, jobs: seq<Job>)
    requires ValidPools(pools)
    ensures TotalWaiting(pools, jobs) <= WaitingJobs(jobs)
  {
    assert Disjoint(pools);
    TotalBound(pools, jobs);
  }

  // ---- names ----

  function RunnerDescription(controller: string, pool: string): string {
    "Managed by FARM controller " + controller + " pool " + pool
  }

  /** Two runners with the same description belong to the same controller and pool. */
  lemma DescriptionInjective(c1: string, p1: string, c2: string, p2: string)
    requires ValidName(c1) && ValidName(c2)
    requires RunnerDescription(c1, p1) == RunnerDescription(c2, p2)
    ensures c1 == c2 && p1 == p2
  {
    var head := "Managed by FARM controller ";
    var t1, t2 := c1 + (" pool " + p1), c2 + (" pool " + p2);
    assert RunnerDescription(c1, p1) == head + t1;
    assert RunnerDescription(c2, p2) == head + t2;
    assert t1 == (head + t1)[|head|..];
    assert t2 == (head + t2)[|head|..];
    SplitAtSpace(c1, " pool " + p1, c2, " pool " + p2);
    assert p1 == (" pool " + p1)[6..] && p2 == (" pool " + p2)[6..];
  }

  lemma SplitAtSpace(a1: string, b1: string, a2: string, b2: string)
    requires ValidName(a1) && ValidName(a2)
    requires |b1| > 0 && b1[0] == ' ' && |b2| > 0 && b2[0] == ' '
    requires a1 + b1 == a2 + b2
    ensures a1 == a2 && b1 == b2
  {
    var t := a1 + b1;
    assert forall k :: 0 <= k < |a1| ==> t[k] == a1[k] && t[k] != ' ';
    assert t == a2 + b2 && forall k :: 0 <= k < |a2| ==> t[k] == a2[k] && t[k] != ' ';
    assert t[|a1|] == ' ' && t[|a2|] == ' ';
    assert a1 == (a1 + b1)[..|a1|] && a2 == (a2 + b2)[..|a2|];
    assert b1 == (a1 + b1)[|a1|..] && b2 == (a2 + b2)[|a2|..];
  }

  function InstanceName(pool: string, id: string): string
    requires |id| >= 12
  {
    "farm-" + pool + "-" + id[..12]
  }

  /** Names of VMs of different pools differ, whatever the hyphens in the pool names. */
  lemma InstanceNameTellsPool(p1: string, id1: string, p2: string, id2: string)
    requires |id1| >= 12 && |id2| >= 12
    requires InstanceName(p1, id1) == InstanceName(p2, id2)
    ensures p1 == p2 && id1[..12] == id2[..12]
  {
    var n1, n2 := InstanceName(p1, id1), InstanceName(p2, id2);
    assert n1[5..|n1| - 13] == p1 && n2[5..|n2| - 13] == p2;
    assert n1[|n1| - 12..] == id1[..12] && n2[|n2| - 12..] == id2[..12];
  }
}
