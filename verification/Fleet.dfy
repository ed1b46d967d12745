/** All pools of one controller over the stores they share. The stores are keyed by instance
    ID, VM name and runner ID, not by pool; that pools do not disturb each other is proved
    here, from the ownership tags and from descriptions that tell pools apart. */
module Fleet {
  import opened Arithmetic
  import opened Lifecycle
  import opened Records
  import opened InstanceStore
  import opened Scheduler
  import opened Stores
  import opened Protocol
  import Config
  import Runs
  import P = Provision

  datatype Tag = Tag(id: string, pool: string)

  datatype Runner = Runner(description: string, status: RunnerStatus)

  datatype Registration = Registration(description: string, name: string)

  datatype Shared = Shared(
    records: map<string, Instance>,
    names: map<string, string>,
    vms: map<string, Tag>,
    pending: map<string, Tag>,
    runners: map<int, Runner>,
    issued: map<int, Registration>,
    clock: Time)

  function RowsOf(records: map<string, Instance>, pool: string): map<string, Instance> {
    map id | id in records && records[id].pool == pool :: records[id]
  }

  function NamesOf(names: map<string, string>, records: map<string, Instance>, pool: string): map<string, string> {
    map n | n in names && names[n] in records && records[names[n]].pool == pool :: names[n]
  }

  function TagsOf(vms: map<string, Tag>, pool: string): map<string, string> {
    map n | n in vms && vms[n].pool == pool :: vms[n].id
  }

  function RunnersOf(runners: map<int, Runner>, description: string): map<int, RunnerStatus> {
    map r | r in runners && runners[r].description == description :: runners[r].status
  }

  function IssuedOf(issued: map<int, Registration>, description: string): map<int, string> {
    map r | r in issued && issued[r].description == description :: issued[r].name
  }

  /** What one pool sees: its rows, the VMs with its tag, the runners with its description. */
  function View(g: Shared, controller: string, pool: string): World {
    var description := Config.RunnerDescription(controller, pool);
    World(RowsOf(g.records, pool), NamesOf(g.names, g.records, pool), TagsOf(g.vms, pool), TagsOf(g.pending, pool),
          RunnersOf(g.runners, description), IssuedOf(g.issued, description), g.clock)
  }

  /** The effect of a pool's call on the shared stores: keys only, no filter by pool. */
  function SharedEffect(g: Shared, controller: string, pool: string, e: Effect): Shared {
    match e
    case Nothing => g
    case Insert(row) => g.(records := g.records[row.id := row], names := g.names[row.name := row.id])
    case Write(row) => g.(records := g.records[row.id := row])
    case Accept(name, id) => g.(pending := g.pending[name := Tag(id, pool)])
    case Settle(name, landed) =>
      if name !in g.pending then g
      else g.(pending := g.pending - {name}, vms := if landed then g.vms[name := g.pending[name]] else g.vms)
    case DropVm(name) => g.(vms := g.vms - {name})
    case AddRunner(r, name) =>
      var description := Config.RunnerDescription(controller, pool);
      g.(runners := g.runners[r := Runner(description, RunnerIsOffline)],
         issued := g.issued[r := Registration(description, name)])
    case DropRunner(r) => g.(runners := g.runners - {r})
  }

  /** A name the controller gives to VMs of the pool. The quantifier over the one ID in the
      name keeps the verifier from taking names apart unless a proof mentions it. */
  ghost predicate OwnName(name: string, pool: string) {
    |name| >= 12 && forall id :: id == name[|name| - 12..] ==> name == Config.InstanceName(pool, id)
  }

  lemma NameGiven(pool: string, id: string)
    requires |id| >= 12
    ensures OwnName(Config.InstanceName(pool, id), pool)
  {
    var name := Config.InstanceName(pool, id);
    assert name[|name| - 12..] == id[..12];
    assert id[..12][..12] == id[..12];
  }

  lemma OnePool(name: string, p1: string, p2: string)
    requires OwnName(name, p1) && OwnName(name, p2)
    ensures p1 == p2
  {
    var id := name[|name| - 12..];
    assert name == Config.InstanceName(p1, id) && name == Config.InstanceName(p2, id);
    Config.InstanceNameTellsPool(p1, id, p2, id);
  }

  /** The keys of the shared stores agree about who owns what, and every record and every VM
      has a name of its own pool. */
  ghost predicate Coherent(g: Shared) {
    && (forall id :: id in g.records ==> g.records[id].name in g.names && g.names[g.records[id].name] == id)
    && (forall n :: n in g.names ==> g.names[n] in g.records && g.records[g.names[n]].name == n)
    && (forall n :: n in g.pending ==> n in g.names && g.pending[n].pool == g.records[g.names[n]].pool)
    && (forall r :: r in g.runners ==> r in g.issued && g.runners[r].description == g.issued[r].description)
    && (forall id :: id in g.records ==> OwnName(g.records[id].name, g.records[id].pool))
    && (forall n :: n in g.vms ==> OwnName(n, g.vms[n].pool))
  }

  /** How a pool's calls address the stores: by its own records, by names of its own, by runner
      IDs issued to it, and with new keys nobody has used. */
  ghost predicate Addressed(g: Shared, v: World, pool: string, e: Effect) {
    match e
    case Nothing => true
    case Insert(row) =>
      && row.pool == pool && OwnName(row.name, pool)
      && row.id !in g.records && row.name !in g.names && row.name !in g.vms && row.name !in g.pending
    case Write(row) => row.id in v.records && row.pool == pool && row.name == v.records[row.id].name
    case Accept(name, _) => name in v.names
    case Settle(name, _) => name in v.pending
    case DropVm(name) => OwnName(name, pool)
    case AddRunner(r, _) => r !in g.issued
    case DropRunner(r) => r in v.issued
  }

  lemma RecordKeyed(g: Shared, row: Instance, p: string)
    requires row.id in g.records ==> g.records[row.id].pool == row.pool
    ensures RowsOf(g.records[row.id := row], p) ==
              if row.pool == p then RowsOf(g.records, p)[row.id := row] else RowsOf(g.records, p)
  {}

  lemma NamesUnchanged(g: Shared, row: Instance, p: string)
    requires row.id in g.records && g.records[row.id].pool == row.pool
    ensures NamesOf(g.names, g.records[row.id := row], p) == NamesOf(g.names, g.records, p)
  {}

  lemma NameInserted(g: Shared, row: Instance, p: string)
    requires row.id !in g.records && row.name !in g.names
    requires forall n :: n in g.names ==> g.names[n] in g.records
    ensures NamesOf(g.names[row.name := row.id], g.records[row.id := row], p) ==
              if row.pool == p then NamesOf(g.names, g.records, p)[row.name := row.id]
              else NamesOf(g.names, g.records, p)
  {}

  lemma TagSet(vms: map<string, Tag>, name: string, tag: Tag, p: string)
    requires name in vms ==> vms[name].pool == tag.pool
    ensures TagsOf(vms[name := tag], p) == if tag.pool == p then TagsOf(vms, p)[name := tag.id] else TagsOf(vms, p)
  {}

  lemma TagDropped(vms: map<string, Tag>, name: string, p: string)
    ensures TagsOf(vms - {name}, p) == TagsOf(vms, p) - {name}
  {}

  lemma TagElsewhere(vms: map<string, Tag>, name: string, p: string)
    requires name in vms ==> vms[name].pool != p
    ensures TagsOf(vms, p) - {name} == TagsOf(vms, p)
  {}

  lemma RunnerSet(runners: map<int, Runner>, r: int, x: Runner, d: string)
    requires r !in runners
    ensures RunnersOf(runners[r := x], d) ==
              if x.description == d then RunnersOf(runners, d)[r := x.status] else RunnersOf(runners, d)
  {}

  lemma RunnerDropped(runners: map<int, Runner>, r: int, d: string)
    ensures RunnersOf(runners - {r}, d) == RunnersOf(runners, d) - {r}
    ensures r in runners && runners[r].description != d ==> RunnersOf(runners - {r}, d) == RunnersOf(runners, d)
    ensures r !in runners ==> RunnersOf(runners - {r}, d) == RunnersOf(runners, d)
  {}

  lemma IssuedSet(issued: map<int, Registration>, r: int, x: Registration, d: string)
    requires r !in issued
    ensures IssuedOf(issued[r := x], d) ==
              if x.description == d then IssuedOf(issued, d)[r := x.name] else IssuedOf(issued, d)
  {}

  lemma InsertEffect(g: Shared, controller: string, pool: string, row: Instance, p: string)
    requires Coherent(g) && Addressed(g, View(g, controller, pool), pool, Insert(row))
    ensures Coherent(SharedEffect(g, controller, pool, Insert(row)))
    ensures View(SharedEffect(g, controller, pool, Insert(row)), controller, p) ==
              if p == pool then Effected(View(g, controller, p), Insert(row)) else View(g, controller, p)
  {
    RecordKeyed(g, row, p);
    NameInserted(g, row, p);
  }

  lemma WriteEffect(g: Shared, controller: string, pool: string, row: Instance, p: string)
    requires Coherent(g) && Addressed(g, View(g, controller, pool), pool, Write(row))
    ensures Coherent(SharedEffect(g, controller, pool, Write(row)))
    ensures View(SharedEffect(g, controller, pool, Write(row)), controller, p) ==
              if p == pool then Effected(View(g, controller, p), Write(row)) else View(g, controller, p)
  {
    RecordKeyed(g, row, p);
    NamesUnchanged(g, row, p);
  }

  lemma VmEffect(g: Shared, controller: string, pool: string, e: Effect, p: string)
    requires Coherent(g) && Addressed(g, View(g, controller, pool), pool, e) && (e.Accept? || e.Settle? || e.DropVm?)
    ensures Coherent(SharedEffect(g, controller, pool, e))
    ensures View(SharedEffect(g, controller, pool, e), controller, p) ==
              if p == pool then Effected(View(g, controller, p), e) else View(g, controller, p)
  {
    match e
    case Accept(name, id) => TagSet(g.pending, name, Tag(id, pool), p);
    case Settle(name, landed) => SettleEffect(g, controller, pool, name, landed, p);
    case DropVm(name) => DropVmEffect(g, controller, pool, name, p);
    case _ =>
  }

  lemma DropVmEffect(g: Shared, controller: string, pool: string, name: string, p: string)
    requires Coherent(g) && Addressed(g, View(g, controller, pool), pool, DropVm(name))
    ensures Coherent(SharedEffect(g, controller, pool, DropVm(name)))
    ensures View(SharedEffect(g, controller, pool, DropVm(name)), controller, p) ==
              if p == pool then Effected(View(g, controller, p), DropVm(name)) else View(g, controller, p)
  {
    if name in g.vms {
      OnePool(name, g.vms[name].pool, pool);
    }
    TagDropped(g.vms, name, p);
    if p != pool {
      TagElsewhere(g.vms, name, p);
    }
  }

  lemma SettleEffect(g: Shared, controller: string, pool: string, name: string, landed: bool, p: string)
    requires Coherent(g) && Addressed(g, View(g, controller, pool), pool, Settle(name, landed))
    ensures Coherent(SharedEffect(g, controller, pool, Settle(name, landed)))
    ensures View(SharedEffect(g, controller, pool, Settle(name, landed)), controller, p) ==
              if p == pool then Effected(View(g, controller, p), Settle(name, landed)) else View(g, controller, p)
  {
    assert g.pending[name].pool == pool;
    if name in g.vms {
      OnePool(name, g.vms[name].pool, g.records[g.names[name]].pool);
    }
    TagDropped(g.pending, name, p);
    TagSet(g.vms, name, g.pending[name], p);
    if p != pool {
      TagElsewhere(g.pending, name, p);
    }
  }

  lemma RunnerEffect(g: Shared, controller: string, pool: string, e: Effect, p: string)
    requires Coherent(g) && Addressed(g, View(g, controller, pool), pool, e) && (e.AddRunner? || e.DropRunner?)
    requires Config.ValidName(controller)
    ensures Coherent(SharedEffect(g, controller, pool, e))
    ensures View(SharedEffect(g, controller, pool, e), controller, p) ==
              if p == pool then Effected(View(g, controller, p), e) else View(g, controller, p)
  {
    var mine, d := Config.RunnerDescription(controller, pool), Config.RunnerDescription(controller, p);
    if mine == d {
      Config.DescriptionInjective(controller, pool, controller, p);
    }
    match e
    case AddRunner(r, name) =>
      RunnerSet(g.runners, r, Runner(mine, RunnerIsOffline), d);
      IssuedSet(g.issued, r, Registration(mine, name), d);
    case DropRunner(r) => RunnerDropped(g.runners, r, d);
    case _ =>
  }

  /** A call has its effect in the caller's view, and none in the view of any other pool,
      even of one that shares its Forgejo scope. */
  lemma Isolation(g: Shared, controller: string, pool: string, e: Effect, p: string)
    requires Coherent(g) && Addressed(g, View(g, controller, pool), pool, e)
    requires Config.ValidName(controller)
    ensures Coherent(SharedEffect(g, controller, pool, e))
    ensures View(SharedEffect(g, controller, pool, e), controller, p) ==
              if p == pool then Effected(View(g, controller, p), e) else View(g, controller, p)
  {
    match e
    case Nothing =>
    case Insert(row) => InsertEffect(g, controller, pool, row, p);
    case Write(row) => WriteEffect(g, controller, pool, row, p);
    case AddRunner(_, _) => RunnerEffect(g, controller, pool, e, p);
    case DropRunner(_) => RunnerEffect(g, controller, pool, e, p);
    case _ => VmEffect(g, controller, pool, e, p);
  }

  lemma StaysCoherent(g: Shared, controller: string, pool: string, e: Effect)
    requires Coherent(g) && Addressed(g, View(g, controller, pool), pool, e) && Config.ValidName(controller)
    ensures Coherent(SharedEffect(g, controller, pool, e))
  {
    Isolation(g, controller, pool, e, pool);
  }

  // ---- the fleet as a whole ----

  datatype Setup = Setup(controller: string, pools: map<string, Scaling>)

  datatype Fleet = Fleet(g: Shared, parts: map<string, PoolState>)

  datatype Event =
    | Act(pool: string, step: Label)
    | Environment(runners: map<int, Runner>, vms: map<string, Tag>, clock: Time)
    | ProcessDies

  /** A new record has an ID that is no key of the shared table, and a name made from it for
      its pool; a new runner has an ID that the server has not given out before. */
  ghost predicate Fresh(g: Shared, pool: string, e: Effect) {
    && (e.Insert? ==>
          && e.row.pool == pool && |e.row.id| >= 12 && e.row.name == Config.InstanceName(pool, e.row.id)
          && e.row.id !in g.records)
    && (e.AddRunner? ==> e.runner !in g.issued)
  }

  /** Nothing appears by itself, and nothing changes its owner. */
  ghost predicate Passing(g: Shared, runners: map<int, Runner>, vms: map<string, Tag>, clock: Time) {
    && g.clock <= clock
    && (forall r :: r in runners ==> r in g.runners && runners[r].description == g.runners[r].description)
    && (forall n :: n in vms ==> n in g.vms && vms[n] == g.vms[n])
  }

  ghost predicate Can(u: Setup, f: Fleet, ev: Event) {
    match ev
    case Act(pool, step) =>
      && pool in u.pools && pool in f.parts && !step.Outside?
      && Enabled(u.pools[pool], f.parts[pool], step)
      && Fresh(f.g, pool, EffectOf(f.parts[pool], step))
    case Environment(runners, vms, clock) => Passing(f.g, runners, vms, clock)
    case ProcessDies => true
  }

  function Next(u: Setup, f: Fleet, ev: Event): Fleet {
    match ev
    case Act(pool, step) =>
      if pool !in u.pools || pool !in f.parts then f
      else Fleet(SharedEffect(f.g, u.controller, pool, EffectOf(f.parts[pool], step)),
                 f.parts[pool := Do(u.pools[pool], f.parts[pool], step)])
    case Environment(runners, vms, clock) =>
      Fleet(f.g.(runners := runners, vms := vms, clock := clock), Noticed(u, f.parts, runners, vms, clock))
    case ProcessDies => Fleet(f.g, Dead(u, f.parts))
  }

  /** What one pool sees of an event outside the controller. */
  function Glimpse(u: Setup, p: string, runners: map<int, Runner>, vms: map<string, Tag>, clock: Time): Label {
    Outside(RunnersOf(runners, Config.RunnerDescription(u.controller, p)), TagsOf(vms, p), clock)
  }

  function Noticed(u: Setup, parts: map<string, PoolState>, runners: map<int, Runner>, vms: map<string, Tag>,
                   clock: Time): map<string, PoolState>
  {
    map p | p in parts && p in u.pools :: Do(u.pools[p], parts[p], Glimpse(u, p, runners, vms, clock))
  }

  function Dead(u: Setup, parts: map<string, PoolState>): map<string, PoolState> {
    map p | p in parts && p in u.pools :: Do(u.pools[p], parts[p], Crash)
  }

  lemma NoticedMeans(u: Setup, parts: map<string, PoolState>, runners: map<int, Runner>, vms: map<string, Tag>,
                     clock: Time)
    requires parts.Keys == u.pools.Keys
    ensures Noticed(u, parts, runners, vms, clock).Keys == u.pools.Keys
    ensures forall p :: p in u.pools ==>
              Noticed(u, parts, runners, vms, clock)[p] == Do(u.pools[p], parts[p], Glimpse(u, p, runners, vms, clock))
  {}

  lemma DeadMeans(u: Setup, parts: map<string, PoolState>)
    requires parts.Keys == u.pools.Keys
    ensures Dead(u, parts).Keys == u.pools.Keys
    ensures forall p :: p in u.pools ==> Dead(u, parts)[p] == Do(u.pools[p], parts[p], Crash)
  {}

  /** Every pool is sound, and believes in exactly its part of the shared stores. */
  ghost predicate Sound(u: Setup, f: Fleet) {
    && Config.ValidName(u.controller)
    && Coherent(f.g)
    && f.parts.Keys == u.pools.Keys
    && forall p :: p in u.pools ==> PartSound(p, u.pools[p], f.parts[p], View(f.g, u.controller, p))
  }

  ghost predicate PartSound(p: string, pool: Scaling, s: PoolState, view: World) {
    Inv(pool, s) && s.w == view && ClaimsNamed(s, p)
  }

  ghost predicate ClaimsNamed(s: PoolState, p: string) {
    forall n :: n in s.claims ==> OwnName(n, p)
  }

  ghost predicate RecordsNamed(w: World, p: string) {
    forall id :: id in w.records ==> OwnName(w.records[id].name, p)
  }

  lemma ViewNamed(g: Shared, controller: string, p: string)
    requires Coherent(g)
    ensures RecordsNamed(View(g, controller, p), p)
  {}

  /** A pool addresses only what it can see, or what bears a name of its own. */
  ghost predicate Known(w: World, p: string, e: Effect) {
    && Possible(w, e)
    && (e.DropVm? ==> OwnName(e.name, p))
    && (e.DropRunner? ==> e.runner in w.issued)
  }

  lemma GoroutineKnown(w: World, p: string, k: P.Worker, ch: P.Choice)
    requires Sane(w) && RecordsNamed(w, p) && P.Follows(w, k) && P.Fits(w, k, ch)
    ensures Known(w, p, P.Step(w, k, ch).effect)
  {
    P.StepSafe(w, k, ch);
  }

  lemma StoreCallKnown(s: PoolState, p: string, id: string, call: Call)
    requires Sane(s.w) && MayCall(s.w, id, call)
    ensures Known(s.w, p, EffectOf(s, StoreCall(id, call)))
  {
    var _ := RowAfter(s.w, id, call);
  }

  lemma EnabledKnown(p: string, pool: Scaling, s: PoolState, l: Label)
    requires Inv(pool, s) && Enabled(pool, s, l) && RecordsNamed(s.w, p) && ClaimsNamed(s, p)
    ensures Known(s.w, p, EffectOf(s, l))
  {
    if l.StoreCall? {
      StoreCallKnown(s, p, l.id, l.call);
    } else if l.Proceed? {
      GoroutineKnown(s.w, p, s.workers[l.k], l.choice);
    } else if l.DeleteVm? {
      DeleteVmKnown(p, pool, s, l.name);
    } else {
      OtherKnown(p, pool, s, l);
    }
  }

  lemma DeleteVmKnown(p: string, pool: Scaling, s: PoolState, name: string)
    requires Sane(s.w) && Enabled(pool, s, DeleteVm(name)) && RecordsNamed(s.w, p) && ClaimsNamed(s, p)
    ensures Known(s.w, p, DropVm(name))
  {}

  lemma OtherKnown(p: string, pool: Scaling, s: PoolState, l: Label)
    requires Enabled(pool, s, l) && !l.StoreCall? && !l.Proceed? && !l.DeleteVm?
    ensures Known(s.w, p, EffectOf(s, l))
  {
    hide OwnName;
  }

  lemma ClaimsStayNamed(p: string, pool: Scaling, s: PoolState, l: Label)
    requires RecordsNamed(s.w, p) && ClaimsNamed(s, p)
    requires EffectOf(s, l).Insert? ==> OwnName(EffectOf(s, l).row.name, p)
    ensures ClaimsNamed(Do(pool, s, l), p)
  {
    if l.Spawn? {
    } else if l.BeginProvisioning? {
    } else {
      assert Do(pool, s, l).claims == s.claims;
    }
  }

  /** What is new to the pool's own view is new to the shared stores: the ID as a key, and the
      name because names tell pools apart. */
  lemma NewName(g: Shared, controller: string, pool: string, row: Instance)
    requires Coherent(g) && Possible(View(g, controller, pool), Insert(row)) && Fresh(g, pool, Insert(row))
    ensures OwnName(row.name, pool)
    ensures row.name !in g.names && row.name !in g.vms && row.name !in g.pending
  {
    NameGiven(pool, row.id);
    if row.name in g.names {
      var other := g.records[g.names[row.name]];
      OnePool(row.name, other.pool, pool);
    }
    if row.name in g.vms {
      OnePool(row.name, g.vms[row.name].pool, pool);
    }
  }

  lemma KnownAddressed(g: Shared, controller: string, pool: string, e: Effect)
    requires Coherent(g) && Known(View(g, controller, pool), pool, e) && Fresh(g, pool, e)
    ensures Addressed(g, View(g, controller, pool), pool, e)
  {
    if e.Insert? {
      NewName(g, controller, pool, e.row);
    }
  }

  lemma PartActs(p: string, pool: Scaling, s: PoolState, step: Label, view: World)
    requires PartSound(p, pool, s, view) && RecordsNamed(view, p) && Enabled(pool, s, step) && !step.Outside?
    requires EffectOf(s, step).Insert? ==> OwnName(EffectOf(s, step).row.name, p)
    ensures PartSound(p, pool, Do(pool, s, step), Effected(view, EffectOf(s, step)))
    ensures Known(view, p, EffectOf(s, step))
  {
    StepKeeps(pool, s, step);
    DoHasEffect(pool, s, step);
    EnabledKnown(p, pool, s, step);
    ClaimsStayNamed(p, pool, s, step);
  }

  lemma PartLooksOutside(p: string, pool: Scaling, s: PoolState, view: World, runners: map<int, RunnerStatus>,
                         vms: map<string, string>, clock: Time)
    requires PartSound(p, pool, s, view) && Protocol.Passing(view, runners, vms, clock)
    ensures PartSound(p, pool, Do(pool, s, Outside(runners, vms, clock)),
                      view.(runners := runners, vms := vms, clock := clock))
  {
    StepKeeps(pool, s, Outside(runners, vms, clock));
  }

  lemma PartDies(p: string, pool: Scaling, s: PoolState, view: World)
    requires PartSound(p, pool, s, view)
    ensures PartSound(p, pool, Do(pool, s, Crash), view)
  {
    StepKeeps(pool, s, Crash);
  }

  /** The pool that acts, in terms of its own state and view alone. */
  lemma ActAddressed(u: Setup, f: Fleet, pool: string, step: Label)
    requires Sound(u, f) && Can(u, f, Act(pool, step))
    ensures Addressed(f.g, View(f.g, u.controller, pool), pool, EffectOf(f.parts[pool], step))
    ensures PartSound(pool, u.pools[pool], Do(u.pools[pool], f.parts[pool], step),
                      Effected(View(f.g, u.controller, pool), EffectOf(f.parts[pool], step)))
  {
    var view, e := View(f.g, u.controller, pool), EffectOf(f.parts[pool], step);
    assert PartSound(pool, u.pools[pool], f.parts[pool], view);
    ViewNamed(f.g, u.controller, pool);
    if e.Insert? {
      NameGiven(pool, e.row.id);
    }
    hide PartSound, View, RecordsNamed, Coherent, Known, Addressed, EffectOf, Do, Effected;
    PartActs(pool, u.pools[pool], f.parts[pool], step, view);
    KnownAddressed(f.g, u.controller, pool, e);
  }

  /** What one pool does to itself and to the stores, whichever step it was. */
  lemma TurnPart(u: Setup, f: Fleet, pool: string, e: Effect, after: PoolState, p: string)
    requires Sound(u, f) && pool in u.pools && p in u.pools
    requires Addressed(f.g, View(f.g, u.controller, pool), pool, e)
    requires PartSound(pool, u.pools[pool], after, Effected(View(f.g, u.controller, pool), e))
    ensures PartSound(p, u.pools[p], f.parts[pool := after][p],
                      View(SharedEffect(f.g, u.controller, pool, e), u.controller, p))
  {
    Isolation(f.g, u.controller, pool, e, p);
    assert PartSound(p, u.pools[p], f.parts[p], View(f.g, u.controller, p));
    hide PartSound, View, SharedEffect, Effected, Addressed;
  }

  lemma TurnParts(u: Setup, f: Fleet, pool: string, e: Effect, after: PoolState)
    requires Sound(u, f) && pool in u.pools
    requires Addressed(f.g, View(f.g, u.controller, pool), pool, e)
    requires PartSound(pool, u.pools[pool], after, Effected(View(f.g, u.controller, pool), e))
    ensures forall p :: p in u.pools ==>
              PartSound(p, u.pools[p], f.parts[pool := after][p],
                        View(SharedEffect(f.g, u.controller, pool, e), u.controller, p))
  {
    hide PartSound, View, SharedEffect, Effected, Addressed;
    forall p | p in u.pools
      ensures PartSound(p, u.pools[p], f.parts[pool := after][p],
                        View(SharedEffect(f.g, u.controller, pool, e), u.controller, p))
    {
      TurnPart(u, f, pool, e, after, p);
    }
  }

  lemma TurnKeeps(u: Setup, f: Fleet, pool: string, e: Effect, after: PoolState)
    requires Sound(u, f) && pool in u.pools
    requires Addressed(f.g, View(f.g, u.controller, pool), pool, e)
    requires PartSound(pool, u.pools[pool], after, Effected(View(f.g, u.controller, pool), e))
    ensures Sound(u, Fleet(SharedEffect(f.g, u.controller, pool, e), f.parts[pool := after]))
  {
    hide PartSound, View, SharedEffect, Effected, Addressed, Coherent;
    StaysCoherent(f.g, u.controller, pool, e);
    TurnParts(u, f, pool, e, after);
    PartsReplaced(u, f.(g := SharedEffect(f.g, u.controller, pool, e)), f.parts[pool := after]);
  }

  lemma ActKeeps(u: Setup, f: Fleet, pool: string, step: Label)
    requires Sound(u, f) && Can(u, f, Act(pool, step))
    ensures Sound(u, Next(u, f, Act(pool, step)))
  {
    ActAddressed(u, f, pool, step);
    hide Sound, PartSound, View, SharedEffect, Addressed, EffectOf, Do;
    TurnKeeps(u, f, pool, EffectOf(f.parts[pool], step), Do(u.pools[pool], f.parts[pool], step));
  }

  lemma LooksAround(u: Setup, f: Fleet, runners: map<int, Runner>, vms: map<string, Tag>, clock: Time, p: string)
    requires p in u.pools && p in f.parts
    requires PartSound(p, u.pools[p], f.parts[p], View(f.g, u.controller, p)) && Passing(f.g, runners, vms, clock)
    ensures PartSound(p, u.pools[p], Do(u.pools[p], f.parts[p], Glimpse(u, p, runners, vms, clock)),
                      View(f.g.(runners := runners, vms := vms, clock := clock), u.controller, p))
  {
    var seen := RunnersOf(runners, Config.RunnerDescription(u.controller, p));
    PartLooksOutside(p, u.pools[p], f.parts[p], View(f.g, u.controller, p), seen, TagsOf(vms, p), clock);
  }

  lemma AllLookAround(u: Setup, f: Fleet, runners: map<int, Runner>, vms: map<string, Tag>, clock: Time,
                      parts: map<string, PoolState>)
    requires Sound(u, f) && parts.Keys == u.pools.Keys && Passing(f.g, runners, vms, clock)
    requires forall p :: p in u.pools ==> parts[p] == Do(u.pools[p], f.parts[p], Glimpse(u, p, runners, vms, clock))
    ensures Sound(u, Fleet(f.g.(runners := runners, vms := vms, clock := clock), parts))
  {
    var g := f.g.(runners := runners, vms := vms, clock := clock);
    forall p | p in u.pools
      ensures PartSound(p, u.pools[p], parts[p], View(g, u.controller, p))
    {
      LooksAround(u, f, runners, vms, clock, p);
    }
    hide PartSound, View, Do, Glimpse;
    PartsReplaced(u, f.(g := g), parts);
  }

  lemma EnvironmentKeeps(u: Setup, f: Fleet, runners: map<int, Runner>, vms: map<string, Tag>, clock: Time)
    requires Sound(u, f) && Can(u, f, Environment(runners, vms, clock))
    ensures Sound(u, Next(u, f, Environment(runners, vms, clock)))
  {
    NoticedMeans(u, f.parts, runners, vms, clock);
    AllLookAround(u, f, runners, vms, clock, Noticed(u, f.parts, runners, vms, clock));
  }

  lemma AllDie(u: Setup, f: Fleet, parts: map<string, PoolState>)
    requires Sound(u, f) && parts.Keys == u.pools.Keys
    requires forall p :: p in u.pools ==> parts[p] == Do(u.pools[p], f.parts[p], Crash)
    ensures forall p :: p in u.pools ==> PartSound(p, u.pools[p], parts[p], View(f.g, u.controller, p))
  {
    forall p | p in u.pools
      ensures PartSound(p, u.pools[p], parts[p], View(f.g, u.controller, p))
    {
      PartDies(p, u.pools[p], f.parts[p], View(f.g, u.controller, p));
    }
  }

  lemma DeathKeeps(u: Setup, f: Fleet)
    requires Sound(u, f)
    ensures Sound(u, Next(u, f, ProcessDies))
  {
    DeadMeans(u, f.parts);
    AllDie(u, f, Dead(u, f.parts));
    PartsReplaced(u, f, Dead(u, f.parts));
  }

  lemma PartsReplaced(u: Setup, f: Fleet, parts: map<string, PoolState>)
    requires Config.ValidName(u.controller) && Coherent(f.g) && parts.Keys == u.pools.Keys
    requires forall p :: p in u.pools ==> PartSound(p, u.pools[p], parts[p], View(f.g, u.controller, p))
    ensures Sound(u, f.(parts := parts))
  {}

  function RunAll(u: Setup, f: Fleet, events: seq<Event>): Fleet {
    if events == [] then f else Next(u, RunAll(u, f, events[..|events| - 1]), events[|events| - 1])
  }

  ghost predicate CanAll(u: Setup, f: Fleet, events: seq<Event>) {
    events == [] ||
    (&& CanAll(u, f, events[..|events| - 1])
     && Can(u, RunAll(u, f, events[..|events| - 1]), events[|events| - 1]))
  }

  /** The labels of one pool in a run of the fleet. */
  function Alone(u: Setup, events: seq<Event>, p: string): seq<Label> {
    if events == [] then []
    else Alone(u, events[..|events| - 1], p) + OwnLabels(u, events[|events| - 1], p)
  }

  function OwnLabels(u: Setup, ev: Event, p: string): seq<Label> {
    match ev
    case Act(pool, step) => if pool == p then [step] else []
    case Environment(runners, vms, clock) => [Glimpse(u, p, runners, vms, clock)]
    case ProcessDies => [Crash]
  }

  /** The part of a pool is moved by its own label, if it has one. */
  ghost predicate Moved(u: Setup, p: string, own: seq<Label>, parts: map<string, PoolState>,
                        later: map<string, PoolState>)
    requires p in u.pools && p in parts
  {
    && p in later && |own| <= 1
    && (own == [] ==> later[p] == parts[p])
    && (own != [] ==> Enabled(u.pools[p], parts[p], own[0]) && later[p] == Do(u.pools[p], parts[p], own[0]))
  }

  lemma PartMoves(u: Setup, f: Fleet, ev: Event, p: string)
    requires Sound(u, f) && Can(u, f, ev) && p in u.pools
    ensures Moved(u, p, OwnLabels(u, ev, p), f.parts, Next(u, f, ev).parts)
  {
    hide Moved, Next, PartSound, Coherent, Enabled, Passing;
    match ev
    case Act(pool, step) => ActMoves(u, f, pool, step, p);
    case Environment(runners, vms, clock) => GlimpseMoves(u, f, runners, vms, clock, p);
    case ProcessDies => DeathMoves(u, f, p);
  }

  lemma GlimpseMoves(u: Setup, f: Fleet, runners: map<int, Runner>, vms: map<string, Tag>, clock: Time, p: string)
    requires Sound(u, f) && Passing(f.g, runners, vms, clock) && p in u.pools
    ensures Moved(u, p, OwnLabels(u, Environment(runners, vms, clock), p), f.parts,
                  Next(u, f, Environment(runners, vms, clock)).parts)
  {
    NoticedMeans(u, f.parts, runners, vms, clock);
    GlimpsePossible(u, f, runners, vms, clock, p);
    hide PartSound, Coherent, Glimpse, Do, Enabled, Noticed, Passing;
  }

  lemma DeathMoves(u: Setup, f: Fleet, p: string)
    requires f.parts.Keys == u.pools.Keys && p in u.pools
    ensures Moved(u, p, OwnLabels(u, ProcessDies, p), f.parts, Next(u, f, ProcessDies).parts)
  {
    DeadMeans(u, f.parts);
    CrashPossible(u.pools[p], f.parts[p]);
    hide Do, Enabled, Dead;
  }

  lemma ActMoves(u: Setup, f: Fleet, pool: string, step: Label, p: string)
    requires f.parts.Keys == u.pools.Keys && Can(u, f, Act(pool, step)) && p in u.pools
    ensures Moved(u, p, OwnLabels(u, Act(pool, step), p), f.parts, Next(u, f, Act(pool, step)).parts)
  {
    hide Enabled, Do, SharedEffect, EffectOf, Fresh;
  }

  lemma CrashPossible(pool: Scaling, s: PoolState)
    ensures Enabled(pool, s, Crash)
  {}

  lemma GlimpsePossible(u: Setup, f: Fleet, runners: map<int, Runner>, vms: map<string, Tag>, clock: Time, p: string)
    requires Sound(u, f) && Passing(f.g, runners, vms, clock) && p in u.pools
    ensures Enabled(u.pools[p], f.parts[p], Glimpse(u, p, runners, vms, clock))
  {
    hide Inv, Coherent;
    assert PartSound(p, u.pools[p], f.parts[p], View(f.g, u.controller, p));
  }

  // ---- runs from a first start ----

  /** Shared stores of which no more is known than that they are coherent and that each pool's
      part of them fits together. */
  ghost predicate Startable(u: Setup, g: Shared) {
    && Config.ValidName(u.controller) && Coherent(g)
    && forall p :: p in u.pools ==> Runs.Startable(u.pools[p], View(g, u.controller, p))
  }

  function FirstRow(rows: map<string, RunRow>, p: string): Option<RunRow> {
    if p in rows then Some(rows[p]) else None
  }

  /** A first start of the controller on such stores. */
  function FirstParts(u: Setup, g: Shared, rows: map<string, RunRow>): map<string, PoolState> {
    map p | p in u.pools :: Runs.Start(u.pools[p], View(g, u.controller, p), FirstRow(rows, p))
  }

  lemma FirstStart(u: Setup, g: Shared, rows: map<string, RunRow>)
    requires Startable(u, g)
    ensures Sound(u, Fleet(g, FirstParts(u, g, rows)))
  {
    hide PartSound, View, Runs.Start, Coherent;
    forall p | p in u.pools
      ensures PartSound(p, u.pools[p], FirstParts(u, g, rows)[p], View(g, u.controller, p))
    {
      FirstPart(u, g, p, FirstRow(rows, p));
    }
  }

  lemma FirstPart(u: Setup, g: Shared, p: string, row: Option<RunRow>)
    requires Startable(u, g) && p in u.pools
    ensures PartSound(p, u.pools[p], Runs.Start(u.pools[p], View(g, u.controller, p), row), View(g, u.controller, p))
  {
    var view := View(g, u.controller, p);
    Runs.StartInv(u.pools[p], view, row);
    ViewNamed(g, u.controller, p);
    forall n | n in view.pending
      ensures OwnName(n, p)
    {
      assert g.records[g.names[n]].name == n;
    }
  }

  lemma {:induction false} FleetKeeps(u: Setup, f: Fleet, events: seq<Event>)
    requires Sound(u, f) && CanAll(u, f, events)
    ensures Sound(u, RunAll(u, f, events))
  {
    if events != [] {
      var before, last := events[..|events| - 1], events[|events| - 1];
      FleetKeeps(u, f, before);
      hide Sound, Enabled, Do, SharedEffect, Noticed, Dead;
      match last
      case Act(pool, step) => ActKeeps(u, RunAll(u, f, before), pool, step);
      case Environment(runners, vms, clock) => EnvironmentKeeps(u, RunAll(u, f, before), runners, vms, clock);
      case ProcessDies => DeathKeeps(u, RunAll(u, f, before));
    }
  }

  /** Pools do not interfere: whatever the steps of all pools interleave to over the shared
      stores, what one pool sees and does is a legal run of that pool alone. Every theorem
      about the runs of one pool is therefore one about each pool of the fleet. */
  lemma {:induction false} RunsAsIfAlone(u: Setup, f: Fleet, events: seq<Event>, p: string)
    requires Sound(u, f) && CanAll(u, f, events) && p in u.pools
    ensures Runs.Legal(u.pools[p], f.parts[p], Alone(u, events, p))
    ensures p in RunAll(u, f, events).parts
    ensures RunAll(u, f, events).parts[p] == Runs.Exec(u.pools[p], f.parts[p], Alone(u, events, p))
    ensures View(RunAll(u, f, events).g, u.controller, p) == RunAll(u, f, events).parts[p].w
  {
    FleetKeeps(u, f, events);
    if events != [] {
      var before, last := events[..|events| - 1], events[|events| - 1];
      RunsAsIfAlone(u, f, before, p);
      FleetKeeps(u, f, before);
      PartMoves(u, RunAll(u, f, before), last, p);
      Runs.ExtendIfAny(u.pools[p], f.parts[p], Alone(u, before, p), OwnLabels(u, last, p),
                       RunAll(u, f, events).parts[p]);
    }
    assert PartSound(p, u.pools[p], RunAll(u, f, events).parts[p], View(RunAll(u, f, events).g, u.controller, p));
  }

  /** In the shared stores the VMs with a pool's tag stay within that pool's limit, or within
      what there was of them to begin with. */
  lemma TaggedBound(u: Setup, g: Shared, rows: map<string, RunRow>, events: seq<Event>, p: string)
    requires Startable(u, g) && p in u.pools && CanAll(u, Fleet(g, FirstParts(u, g, rows)), events)
    ensures var now := RunAll(u, Fleet(g, FirstParts(u, g, rows)), events).g;
            |set n | n in now.vms && now.vms[n].pool == p| <=
            Max(u.pools[p].maxInstances, |set n | n in g.vms.Keys + g.pending.Keys && TaggedIn(g, n, p)|)
  {
    var f := Fleet(g, FirstParts(u, g, rows));
    var journal, end := Alone(u, events, p), RunAll(u, f, events);
    FirstStart(u, g, rows);
    RunsAsIfAlone(u, f, events, p);
    hide Startable, CanAll, RunAll, View, Runs.Start, Runs.Legal, Runs.Exec;
    ViewBound(u, g, p, FirstRow(rows, p), journal);
    TagsCounted(end.g, u.controller, p);
    TagsCounted(g, u.controller, p);
  }

  lemma ViewBound(u: Setup, g: Shared, p: string, row: Option<RunRow>, journal: seq<Label>)
    requires Startable(u, g) && p in u.pools
    requires Runs.Legal(u.pools[p], Runs.Start(u.pools[p], View(g, u.controller, p), row), journal)
    ensures var view := View(g, u.controller, p);
            |Runs.Exec(u.pools[p], Runs.Start(u.pools[p], view, row), journal).w.vms| <=
            Max(u.pools[p].maxInstances, |view.vms.Keys + view.pending.Keys|)
  {
    Runs.PhysicalBound(u.pools[p], View(g, u.controller, p), row, journal, |journal|);
    assert journal[..|journal|] == journal;
  }

  lemma TagsCounted(g: Shared, controller: string, p: string)
    ensures var view := View(g, controller, p);
            && |set n | n in g.vms && g.vms[n].pool == p| == |view.vms|
            && |set n | n in g.vms.Keys + g.pending.Keys && TaggedIn(g, n, p)| == |view.vms.Keys + view.pending.Keys|
  {
    hide TagsOf, RowsOf, NamesOf, RunnersOf, IssuedOf, TaggedIn;
    TagKeys(g.vms, p);
    BothTagKeys(g, p);
  }

  lemma BothTagKeys(g: Shared, p: string)
    ensures (set n | n in g.vms.Keys + g.pending.Keys && TaggedIn(g, n, p)) ==
            TagsOf(g.vms, p).Keys + TagsOf(g.pending, p).Keys
  {}

  lemma TagKeys(vms: map<string, Tag>, p: string)
    ensures TagsOf(vms, p).Keys == set n | n in vms && vms[n].pool == p
    ensures |TagsOf(vms, p)| == |set n | n in vms && vms[n].pool == p|
  {
    assert |TagsOf(vms, p)| == |TagsOf(vms, p).Keys|;
  }

  /** The name is that of a VM of the pool, or of one that Incus has accepted to create. */
  predicate TaggedIn(g: Shared, name: string, pool: string) {
    (name in g.vms && g.vms[name].pool == pool) || (name in g.pending && g.pending[name].pool == pool)
  }
}
