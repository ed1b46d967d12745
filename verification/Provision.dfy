/** The program one provisioning goroutine runs: `provision` with its compensation `fail`,
    and the `cleanup` it ends in when its runner has already gone. Goroutines of a pool
    interleave call by call, so the program is written as what each single call does. */
module Provision {
  import opened Lifecycle
  import opened Records
  import opened InstanceStore
  import opened Stores
  import Backoff

  /** The calls of `provision`, `fail` and `cleanup`, in program order. */
  datatype BootPoint =
    | ToStageRegister | ToRegister | ToSaveRunner | ToStageCreate | ToCreate | ToCreateAnswer
    | ToStageWait | ToWait | ToStagePush | ToPush | ToStageAwait | ToAwait | ToMarkReady | ToMarkRunning

  datatype FailPoint = FailBegin | FailRunner | FailVm | FailEnd

  datatype CleanPoint = CleanBegin | CleanRunner | CleanStage | CleanVm | CleanEnd | CleanRetry

  /** Where a goroutine stands: the call it makes next. `reg` is the registered runner ID,
      0 when there is none; `remove` is the flag `deleteInstance`; `errors` says that some
      compensation step has already failed. */
  datatype Pc =
    | Boot(boot: BootPoint, reg: int)
    | Fail(fail: FailPoint, reg: int, remove: bool, errors: bool)
    | Clean(clean: CleanPoint, reg: int)
    | Done(succeeded: bool)

  datatype Worker = Worker(id: string, name: string, pc: Pc)

  /** What a look at the runner shows. */
  datatype Sight = SeesError | SeesMissing | SeesIdle | SeesActive

  /** Everything a call's result depends on that the controller does not decide. */
  datatype Choice = Choice(fate: Fate, runner: int, sight: Sight, message: string, image: bool)

  /** The choices the world can make: a runner ID is never issued twice, and a look at a
      runner shows what is there unless the request fails. */
  predicate Fits(w: World, k: Worker, ch: Choice) {
    && (k.pc.Boot? && k.pc.boot == ToRegister && ch.fate != FailsBefore ==> ch.runner != 0 && ch.runner !in w.issued)
    && (k.pc.Boot? && k.pc.boot == ToAwait ==>
          && (ch.sight == SeesMissing ==> k.pc.reg !in w.runners)
          && (ch.sight == SeesIdle ==> k.pc.reg in w.runners && w.runners[k.pc.reg] == RunnerIdle)
          && (ch.sight == SeesActive ==> k.pc.reg in w.runners && w.runners[k.pc.reg] == RunnerActive))
  }

  /** One step: the effect on the stores, the next call, and whether a guard of the store
      refused the call. */
  datatype Move = Move(effect: Effect, pc: Pc, refused: bool)

  /** A store call: refused by its guard, or committed, lost or silently committed. */
  function StoreMove(w: World, k: Worker, call: Call, fate: Fate, next: Pc, onError: Pc): Move {
    if k.id !in w.records then Move(Nothing, onError, true)
    else
      var before := w.records[k.id];
      match Change(before, call)
      case None => Move(Nothing, onError, true)
      case Some(after) =>
        var write := Write(Stamp(before, after, w.clock));
        match fate
        case Commits => Move(write, next, false)
        case FailsBefore => Move(Nothing, onError, false)
        case FailsAfter => Move(write, onError, false)
  }

  /** A call to another server that has the given effect if it is carried out. */
  function RemoteMove(effect: Effect, fate: Fate, next: Pc, onError: Pc): Move {
    match fate
    case Commits => Move(effect, next, false)
    case FailsBefore => Move(Nothing, onError, false)
    case FailsAfter => Move(effect, onError, false)
  }

  function Step(w: World, k: Worker, ch: Choice): Move {
    match k.pc
    case Boot(at, reg) => BootStep(w, k, at, reg, ch)
    case Fail(at, reg, remove, errors) => FailStep(w, k, at, reg, remove, errors, ch)
    case Clean(at, reg) => CleanStep(w, k, at, reg, ch)
    case Done(_) => Move(Nothing, k.pc, false)
  }

  /** `provision`: each error after the registration goes through `fail`. */
  function BootStep(w: World, k: Worker, at: BootPoint, reg: int, ch: Choice): Move {
    var failed := Fail(FailBegin, reg, false, false);
    var failedWithVm := Fail(FailBegin, reg, true, false);
    match at
    case ToStageRegister =>
      // The errors before the registration return without compensation.
      StoreMove(w, k, SetStage(StageRegisterRunner), ch.fate, Boot(ToRegister, 0), Done(false))
    case ToRegister =>
      RemoteMove(AddRunner(ch.runner, k.name), ch.fate, Boot(ToSaveRunner, ch.runner), Fail(FailBegin, 0, false, false))
    case ToSaveRunner => StoreMove(w, k, SetRegistration(reg), ch.fate, Boot(ToStageCreate, reg), failed)
    case ToStageCreate => StoreMove(w, k, SetStage(StageCreateInstance), ch.fate, Boot(ToCreate, reg), failed)
    case ToCreate =>
      // The request is sent; one that cannot even be built or sent fails at once.
      if ch.fate == FailsBefore then Move(Nothing, failed, false)
      else Move(Accept(k.name, k.id), Boot(ToCreateAnswer, reg), false)
    case ToCreateAnswer =>
      // `instanceCreated` is still false when the answer is an error.
      Move(Settle(k.name, ch.fate != FailsBefore), if ch.fate == Commits then Boot(ToStageWait, reg) else failed, false)
    case ToStageWait =>
      StoreMove(w, k, SetStage(if ch.image then StageWaitAgent else StageWaitCloudInit), ch.fate, Boot(ToWait, reg),
                failedWithVm)
    case ToWait => RemoteMove(Nothing, ch.fate, Boot(ToStagePush, reg), failedWithVm)
    case ToStagePush => StoreMove(w, k, SetStage(StagePushRunnerConfig), ch.fate, Boot(ToPush, reg), failedWithVm)
    case ToPush => RemoteMove(Nothing, ch.fate, Boot(ToStageAwait, reg), failedWithVm)
    case ToStageAwait => StoreMove(w, k, SetStage(StageWaitRunner), ch.fate, Boot(ToAwait, reg), failedWithVm)
    case ToAwait =>
      var pc := match ch.sight
                case SeesError => failedWithVm
                case SeesMissing => Clean(CleanBegin, reg)
                case SeesIdle => Boot(ToMarkReady, reg)
                case SeesActive => Boot(ToMarkRunning, reg);
      Move(Nothing, pc, false)
    case ToMarkReady => StoreMove(w, k, MarkReady, ch.fate, Done(true), failedWithVm)
    case ToMarkRunning => StoreMove(w, k, MarkRunning, ch.fate, Done(true), failedWithVm)
  }

  /** `fail`: goes on after its own errors, and finishes the record only without any. */
  function FailStep(w: World, k: Worker, at: FailPoint, reg: int, remove: bool, errors: bool, ch: Choice): Move {
    match at
    case FailBegin =>
      StoreMove(w, k, BeginCleanup(Failed, BootstrapFailed, ch.message), ch.fate,
                Fail(FailRunner, reg, remove, errors), Fail(FailRunner, reg, remove, true))
    case FailRunner =>
      if reg == 0 then Move(Nothing, Fail(FailVm, reg, remove, errors), false)
      else RemoteMove(DropRunner(reg), ch.fate, Fail(FailVm, reg, remove, errors), Fail(FailVm, reg, remove, true))
    case FailVm =>
      if !remove then Move(Nothing, Fail(FailEnd, reg, remove, errors), false)
      else RemoteMove(DropVm(k.name), ch.fate, Fail(FailEnd, reg, remove, errors), Fail(FailEnd, reg, remove, true))
    case FailEnd =>
      StoreMove(w, k, if errors then Retry(ch.message, w.clock + Backoff.RETRY_BASE) else FinishCleanup, ch.fate,
                Done(false), Done(false))
  }

  /** `cleanup`: stops at its first error; a failed deletion schedules a retry. */
  function CleanStep(w: World, k: Worker, at: CleanPoint, reg: int, ch: Choice): Move {
    match at
    case CleanBegin =>
      StoreMove(w, k, BeginCleanup(Succeeded, JobCompleted, ""), ch.fate, Clean(CleanRunner, reg), Done(false))
    case CleanRunner =>
      if reg == 0 then Move(Nothing, Clean(CleanStage, reg), false)
      else RemoteMove(DropRunner(reg), ch.fate, Clean(CleanStage, reg), Clean(CleanRetry, reg))
    case CleanStage => StoreMove(w, k, SetStage(StageDeleteInstance), ch.fate, Clean(CleanVm, reg), Done(false))
    case CleanVm => RemoteMove(DropVm(k.name), ch.fate, Clean(CleanEnd, reg), Clean(CleanRetry, reg))
    case CleanEnd => StoreMove(w, k, FinishCleanup, ch.fate, Done(true), Done(false))
    case CleanRetry =>
      StoreMove(w, k, Retry(ch.message, w.clock + Backoff.RETRY_BASE), ch.fate, Done(false), Done(false))
  }

  function BootRank(at: BootPoint): nat {
    match at
    case ToStageRegister => 0
    case ToRegister => 1
    case ToSaveRunner => 2
    case ToStageCreate => 3
    case ToCreate => 4
    case ToCreateAnswer => 5
    case ToStageWait => 6
    case ToWait => 7
    case ToStagePush => 8
    case ToPush => 9
    case ToStageAwait => 10
    case ToAwait => 11
    case ToMarkReady => 12
    case ToMarkRunning => 12
  }

  function FailRank(at: FailPoint): nat {
    match at
    case FailBegin => 0
    case FailRunner => 1
    case FailVm => 2
    case FailEnd => 3
  }

  function CleanRank(at: CleanPoint): nat {
    match at
    case CleanBegin => 0
    case CleanRunner => 1
    case CleanStage => 2
    case CleanVm => 3
    case CleanEnd => 4
    case CleanRetry => 4
  }

  /** Steps left at most. */
  function Left(pc: Pc): nat {
    match pc
    case Boot(at, _) => 18 - BootRank(at)
    case Fail(at, _, _, _) => 4 - FailRank(at)
    case Clean(at, _) => 5 - CleanRank(at)
    case Done(_) => 0
  }

  /** A goroutine never loops: it ends after at most eighteen calls. */
  lemma StepsRunOut(w: World, k: Worker, ch: Choice)
    requires !k.pc.Done?
    ensures Left(Step(w, k, ch).pc) < Left(k.pc)
  {}

  // ---- the assertion a goroutine maintains at each of its calls ----

  /** The three outcomes a goroutine can give its record: none yet, that of `fail`, and that
      of a job that was over before its runner was seen. */
  predicate Unended(x: Instance) {
    x.result == NoResult && x.reason == NoReason
  }

  predicate Compensated(x: Instance) {
    x.result == Failed && x.reason == BootstrapFailed
  }

  predicate JobOver(x: Instance) {
    x.result == Succeeded && x.reason == JobCompleted
  }

  /** The stage in the record is that of the call under way, or of the last one. */
  predicate StageFits(pc: Pc, stage: Stage) {
    match pc
    case Boot(at, _) =>
      (match at
       case ToStageRegister => true
       case ToRegister => stage == StageRegisterRunner
       case ToSaveRunner => stage == StageRegisterRunner
       case ToStageCreate => stage == StageRegisterRunner
       case ToCreate => stage == StageCreateInstance
       case ToCreateAnswer => stage == StageCreateInstance
       case ToStageWait => stage == StageCreateInstance
       case ToWait => stage == StageWaitAgent || stage == StageWaitCloudInit
       case ToStagePush => stage == StageWaitAgent || stage == StageWaitCloudInit
       case ToPush => stage == StagePushRunnerConfig
       case ToStageAwait => stage == StagePushRunnerConfig
       case _ => stage == StageWaitRunner)
    case Fail(at, _, _, errors) => at != FailBegin && !errors ==> stage == StageDeleteRunner
    case Clean(at, _) =>
      (match at
       case CleanBegin => stage == StageWaitRunner
       case CleanRunner => stage == StageDeleteRunner
       case CleanStage => stage == StageDeleteRunner
       case CleanRetry => stage == StageDeleteRunner || stage == StageDeleteInstance
       case _ => stage == StageDeleteInstance)
    case Done(_) => true
  }

  /** What the record says at each call, and what it says of a goroutine that has ended. From
      the moment the registration is stored the record holds the runner. */
  ghost predicate RecordFits(pc: Pc, x: Instance) {
    StageFits(pc, x.stage) &&
    match pc
    case Boot(at, reg) =>
      x.state == Bootstrapping && Unended(x) && (BootRank(at) >= 3 ==> reg != 0 && x.runner == reg)
    case Fail(at, _, _, errors) =>
      if at == FailBegin then x.state != Finished && x.state != Cleaning && Unended(x) && !errors
      else
        && x.state != Finished && (Unended(x) || Compensated(x))
        && (!errors ==> x.state == Cleaning && Compensated(x))
    case Clean(at, reg) =>
      && x.state == (if at == CleanBegin then Bootstrapping else Cleaning)
      && (if at == CleanBegin then Unended(x) else JobOver(x))
      && reg != 0 && x.runner == reg
    case Done(succeeded) =>
      if succeeded then
        ((x.state == Ready || x.state == Running) && x.runner != 0) || (x.state == Finished && JobOver(x))
      else x.state == Finished ==> Compensated(x) || JobOver(x)
  }

  predicate BeforeCreate(pc: Pc) {
    pc.Boot? && BootRank(pc.boot) <= 4
  }

  /** The deletion of the runner lies behind, and has not failed. */
  predicate RunnerDeleted(pc: Pc) {
    || (pc.Fail? && (pc.fail == FailVm || pc.fail == FailEnd) && !pc.errors)
    || (pc.Clean? && (pc.clean == CleanStage || pc.clean == CleanVm || pc.clean == CleanEnd))
  }

  /** The deletion of the VM lies behind, and has not failed. `fail` deletes only a VM whose
      creation was confirmed. */
  predicate VmDeleted(pc: Pc) {
    || (pc.Fail? && pc.fail == FailEnd && pc.remove && !pc.errors)
    || (pc.Clean? && pc.clean == CleanEnd)
  }

  /** Runner and VM are as the goroutine believes at this call. */
  ghost predicate Placed(w: World, name: string, pc: Pc) {
    && (!pc.Done? && pc.reg != 0 ==> pc.reg in w.issued && w.issued[pc.reg] == name)
    && (pc.Boot? && pc.boot == ToSaveRunner ==> pc.reg != 0)
    && (BeforeCreate(pc) ==> name !in w.vms)
    && (RunnerDeleted(pc) && pc.reg != 0 ==> pc.reg !in w.runners)
    && (VmDeleted(pc) ==> name !in w.vms)
    && (pc.Boot? && pc.boot == ToCreateAnswer <==> name in w.pending)
  }

  ghost predicate Follows(w: World, k: Worker) {
    && k.id in w.records && w.records[k.id].id == k.id && w.records[k.id].name == k.name
    && k.name in w.names && w.names[k.name] == k.id
    && RecordFits(k.pc, w.records[k.id])
    && Placed(w, k.name, k.pc)
  }

  /** No call a goroutine makes is refused by a guard of the store, whatever came before. */
  lemma GuardsAccept(w: World, k: Worker, ch: Choice)
    requires Follows(w, k)
    ensures !Step(w, k, ch).refused
  {}

  /** The effect touches only what belongs to this instance. */
  ghost predicate Own(w: World, k: Worker, e: Effect) {
    match e
    case Nothing => true
    case Insert(_) => false
    case Write(row) => row.id == k.id
    case Accept(name, id) => name == k.name && id == k.id
    case Settle(name, _) => name == k.name
    case DropVm(name) => name == k.name
    case AddRunner(_, name) => name == k.name
    case DropRunner(r) => r in w.issued && w.issued[r] == k.name
  }

  /** A step that is possible, stays with the goroutine's own record, VM and runner, and
      leaves the goroutine where its next call is safe. */
  ghost predicate Safe(w: World, k: Worker, m: Move) {
    Possible(w, m.effect) && Own(w, k, m.effect) && Follows(Effected(w, m.effect), k.(pc := m.pc))
  }

  lemma WriteSafe(w: World, k: Worker, call: Call, pc: Pc)
    requires Follows(w, k) && Placed(w, k.name, pc)
    requires call.SetRegistration? ==> call.runner in w.issued && w.issued[call.runner] == k.name
    requires Change(w.records[k.id], call).Some?
    requires RecordFits(pc, Change(w.records[k.id], call).value)
    ensures Safe(w, k, Move(Write(Stamp(w.records[k.id], Change(w.records[k.id], call).value, w.clock)), pc, false))
  {
    var before := w.records[k.id];
    ChangeFollowsLifecycle(before, call);
    var row := Stamp(before, Change(before, call).value, w.clock);
    var w' := Effected(w, Write(row));
    assert w'.records[k.id] == row;
  }

  lemma StoreMoveSafe(w: World, k: Worker, call: Call, fate: Fate, next: Pc, onError: Pc)
    requires Follows(w, k)
    requires call.SetRegistration? ==> call.runner in w.issued && w.issued[call.runner] == k.name
    requires Placed(w, k.name, next) && Placed(w, k.name, onError)
    requires Change(w.records[k.id], call).Some?
    requires var after := Change(w.records[k.id], call).value;
             RecordFits(next, after) && RecordFits(onError, after) && RecordFits(onError, w.records[k.id])
    ensures Safe(w, k, StoreMove(w, k, call, fate, next, onError))
  {
    if fate == Commits {
      WriteSafe(w, k, call, next);
    } else if fate == FailsAfter {
      WriteSafe(w, k, call, onError);
    }
  }

  predicate Remote(at: BootPoint) {
    at == ToRegister || at == ToCreate || at == ToCreateAnswer || at == ToWait || at == ToPush || at == ToAwait
  }

  lemma EarlyStoreSafe(w: World, k: Worker, ch: Choice)
    requires Follows(w, k) && k.pc.Boot? && !Remote(k.pc.boot) && BootRank(k.pc.boot) < 5
    ensures Safe(w, k, Step(w, k, ch))
  {
    var reg := k.pc.reg;
    var failed := Fail(FailBegin, reg, false, false);
    match k.pc.boot
    case ToStageRegister =>
      StoreMoveSafe(w, k, SetStage(StageRegisterRunner), ch.fate, Boot(ToRegister, 0), Done(false));
    case ToSaveRunner => StoreMoveSafe(w, k, SetRegistration(reg), ch.fate, Boot(ToStageCreate, reg), failed);
    case ToStageCreate => StoreMoveSafe(w, k, SetStage(StageCreateInstance), ch.fate, Boot(ToCreate, reg), failed);
    case _ =>
  }

  lemma LateStoreSafe(w: World, k: Worker, ch: Choice)
    requires Follows(w, k) && k.pc.Boot? && !Remote(k.pc.boot) && BootRank(k.pc.boot) > 5
    ensures Safe(w, k, Step(w, k, ch))
  {
    var reg := k.pc.reg;
    var failed := Fail(FailBegin, reg, true, false);
    match k.pc.boot
    case ToStageWait =>
      StoreMoveSafe(w, k, SetStage(if ch.image then StageWaitAgent else StageWaitCloudInit), ch.fate,
                    Boot(ToWait, reg), failed);
    case ToStagePush => StoreMoveSafe(w, k, SetStage(StagePushRunnerConfig), ch.fate, Boot(ToPush, reg), failed);
    case ToStageAwait => StoreMoveSafe(w, k, SetStage(StageWaitRunner), ch.fate, Boot(ToAwait, reg), failed);
    case _ => MarkSafe(w, k, ch);
  }

  lemma MarkSafe(w: World, k: Worker, ch: Choice)
    requires Follows(w, k) && k.pc.Boot? && (k.pc.boot == ToMarkReady || k.pc.boot == ToMarkRunning)
    ensures Safe(w, k, Step(w, k, ch))
  {
    StoreMoveSafe(w, k, if k.pc.boot == ToMarkReady then MarkReady else MarkRunning, ch.fate, Done(true),
                  Fail(FailBegin, k.pc.reg, true, false));
  }

  lemma BootStoreSafe(w: World, k: Worker, ch: Choice)
    requires Follows(w, k) && k.pc.Boot? && !Remote(k.pc.boot)
    ensures Safe(w, k, Step(w, k, ch))
  {
    if BootRank(k.pc.boot) < 5 {
      EarlyStoreSafe(w, k, ch);
    } else {
      LateStoreSafe(w, k, ch);
    }
  }

  /** A remote call that removes something of the instance's, or does nothing. */
  lemma RemoteMoveSafe(w: World, k: Worker, effect: Effect, fate: Fate, next: Pc, onError: Pc)
    requires Follows(w, k)
    requires effect.Nothing? || effect.DropVm? || effect.DropRunner?
    requires Own(w, k, effect)
    requires Placed(Effected(w, effect), k.name, next) && Placed(w, k.name, onError)
    requires RecordFits(next, w.records[k.id]) && RecordFits(onError, w.records[k.id])
    ensures Safe(w, k, RemoteMove(effect, fate, next, onError))
  {
    var w' := Effected(w, effect);
    assert Placed(w', k.name, onError);
  }

  lemma RegisterSafe(w: World, k: Worker, ch: Choice)
    requires Follows(w, k) && Fits(w, k, ch) && k.pc.Boot? && k.pc.boot == ToRegister
    ensures Safe(w, k, Step(w, k, ch))
  {}

  lemma CreateSafe(w: World, k: Worker, ch: Choice)
    requires Follows(w, k) && k.pc.Boot? && k.pc.boot == ToCreate
    ensures Safe(w, k, Step(w, k, ch))
  {}

  lemma CreateAnswerSafe(w: World, k: Worker, ch: Choice)
    requires Follows(w, k) && k.pc.Boot? && k.pc.boot == ToCreateAnswer
    ensures Safe(w, k, Step(w, k, ch))
  {}

  lemma AwaitSafe(w: World, k: Worker, ch: Choice)
    requires Follows(w, k) && k.pc.Boot? && k.pc.boot == ToAwait
    ensures Safe(w, k, Step(w, k, ch))
  {}

  lemma BootRemoteSafe(w: World, k: Worker, ch: Choice)
    requires Follows(w, k) && Fits(w, k, ch) && k.pc.Boot? && Remote(k.pc.boot)
    ensures Safe(w, k, Step(w, k, ch))
  {
    var reg := k.pc.reg;
    match k.pc.boot
    case ToRegister => RegisterSafe(w, k, ch);
    case ToCreate => CreateSafe(w, k, ch);
    case ToCreateAnswer => CreateAnswerSafe(w, k, ch);
    case ToWait => RemoteMoveSafe(w, k, Nothing, ch.fate, Boot(ToStagePush, reg), Fail(FailBegin, reg, true, false));
    case ToPush => RemoteMoveSafe(w, k, Nothing, ch.fate, Boot(ToStageAwait, reg), Fail(FailBegin, reg, true, false));
    case ToAwait => AwaitSafe(w, k, ch);
    case _ =>
  }

  lemma FailDropsSafe(w: World, k: Worker, ch: Choice)
    requires Follows(w, k) && k.pc.Fail? && (k.pc.fail == FailRunner || k.pc.fail == FailVm)
    ensures Safe(w, k, Step(w, k, ch))
  {
    var Fail(at, reg, remove, errors) := k.pc;
    if at == FailRunner {
      RemoteMoveSafe(w, k, if reg == 0 then Nothing else DropRunner(reg), if reg == 0 then Commits else ch.fate,
                     Fail(FailVm, reg, remove, errors), Fail(FailVm, reg, remove, true));
    } else {
      RemoteMoveSafe(w, k, if !remove then Nothing else DropVm(k.name), if !remove then Commits else ch.fate,
                     Fail(FailEnd, reg, remove, errors), Fail(FailEnd, reg, remove, true));
    }
  }

  lemma FailSafe(w: World, k: Worker, ch: Choice)
    requires Follows(w, k) && k.pc.Fail?
    ensures Safe(w, k, Step(w, k, ch))
  {
    if k.pc.fail == FailBegin {
      FailBeginSafe(w, k, ch);
    } else if k.pc.fail == FailEnd {
      StoreMoveSafe(w, k, if k.pc.errors then Retry(ch.message, w.clock + Backoff.RETRY_BASE) else FinishCleanup,
                    ch.fate, Done(false), Done(false));
    } else {
      FailDropsSafe(w, k, ch);
    }
  }

  lemma FailBeginSafe(w: World, k: Worker, ch: Choice)
    requires Follows(w, k) && k.pc.Fail? && k.pc.fail == FailBegin
    ensures Safe(w, k, Step(w, k, ch))
  {
    var Fail(_, reg, remove, errors) := k.pc;
    StoreMoveSafe(w, k, BeginCleanup(Failed, BootstrapFailed, ch.message), ch.fate,
                  Fail(FailRunner, reg, remove, errors), Fail(FailRunner, reg, remove, true));
  }

  lemma CleanDropsSafe(w: World, k: Worker, ch: Choice)
    requires Follows(w, k) && k.pc.Clean? && (k.pc.clean == CleanRunner || k.pc.clean == CleanVm)
    ensures Safe(w, k, Step(w, k, ch))
  {
    var reg := k.pc.reg;
    if k.pc.clean == CleanRunner {
      RemoteMoveSafe(w, k, if reg == 0 then Nothing else DropRunner(reg), if reg == 0 then Commits else ch.fate,
                     Clean(CleanStage, reg), Clean(CleanRetry, reg));
    } else {
      RemoteMoveSafe(w, k, DropVm(k.name), ch.fate, Clean(CleanEnd, reg), Clean(CleanRetry, reg));
    }
  }

  lemma CleanWritesSafe(w: World, k: Worker, ch: Choice)
    requires Follows(w, k) && k.pc.Clean? && (k.pc.clean == CleanBegin || k.pc.clean == CleanStage)
    ensures Safe(w, k, Step(w, k, ch))
  {
    var reg := k.pc.reg;
    if k.pc.clean == CleanBegin {
      StoreMoveSafe(w, k, BeginCleanup(Succeeded, JobCompleted, ""), ch.fate, Clean(CleanRunner, reg), Done(false));
    } else {
      StoreMoveSafe(w, k, SetStage(StageDeleteInstance), ch.fate, Clean(CleanVm, reg), Done(false));
    }
  }

  lemma CleanSafe(w: World, k: Worker, ch: Choice)
    requires Follows(w, k) && k.pc.Clean?
    ensures Safe(w, k, Step(w, k, ch))
  {
    match k.pc.clean
    case CleanBegin => CleanWritesSafe(w, k, ch);
    case CleanStage => CleanWritesSafe(w, k, ch);
    case CleanEnd => StoreMoveSafe(w, k, FinishCleanup, ch.fate, Done(true), Done(false));
    case CleanRetry =>
      StoreMoveSafe(w, k, Retry(ch.message, w.clock + Backoff.RETRY_BASE), ch.fate, Done(false), Done(false));
    case _ => CleanDropsSafe(w, k, ch);
  }

  /** Every call of the program, with every outcome it can have, is safe. */
  lemma StepSafe(w: World, k: Worker, ch: Choice)
    requires Follows(w, k) && Fits(w, k, ch)
    ensures Safe(w, k, Step(w, k, ch))
  {
    if k.pc.Fail? {
      FailSafe(w, k, ch);
    } else if k.pc.Clean? {
      CleanSafe(w, k, ch);
    } else if k.pc.Boot? {
      if Remote(k.pc.boot) {
        BootRemoteSafe(w, k, ch);
      } else {
        BootStoreSafe(w, k, ch);
      }
    }
  }

  /** Another goroutine's step does not disturb this one. */
  lemma OthersFollow(w: World, k: Worker, e: Effect, other: Worker)
    requires Sane(w) && Follows(w, k) && Follows(w, other) && other.id != k.id
    requires Possible(w, e) && Own(w, k, e)
    ensures Follows(Effected(w, e), other)
  {
    assert other.name != k.name;
  }

  // ---- what a finished record means at once, before the next sweep ----

  /** The goroutine is about to ask for Finished. */
  predicate Finishing(pc: Pc) {
    (pc.Fail? && pc.fail == FailEnd && !pc.errors) || (pc.Clean? && pc.clean == CleanEnd)
  }

  /** When a goroutine finishes its record, its runner is gone, and so is its VM unless `fail`
      was called before the creation was confirmed. */
  lemma FinishesWithoutLeftovers(w: World, k: Worker, ch: Choice)
    requires Follows(w, k) && w.records[k.id].state != Finished
    ensures var e := Step(w, k, ch).effect;
            e.Write? && e.row.state == Finished ==>
              && Finishing(k.pc)
              && (k.pc.reg != 0 ==> k.pc.reg !in w.runners)
              && (k.name in w.vms ==> k.pc.Fail? && !k.pc.remove)
  {
    if k.pc.Boot? {
      BootNeverFinishes(w, k, ch);
    }
  }

  lemma BootNeverFinishes(w: World, k: Worker, ch: Choice)
    requires Follows(w, k) && k.pc.Boot?
    ensures var e := Step(w, k, ch).effect; e.Write? ==> e.row.state != Finished
  {}

  /** One turn of a goroutine alone. */
  function Turn(w: World, k: Worker, ch: Choice): (World, Worker) {
    var m := Step(w, k, ch);
    (Effected(w, m.effect), k.(pc := m.pc))
  }

  function Turns(w: World, k: Worker, choices: seq<Choice>): (World, Worker)
    decreases |choices|
  {
    if choices == [] then (w, k)
    else
      var (w', k') := Turn(w, k, choices[0]);
      Turns(w', k', choices[1..])
  }

  lemma AmbiguousAnswer(w: World, k: Worker, ch: Choice)
    requires Sane(w) && Follows(w, k) && k.pc.Boot? && k.pc.boot == ToCreateAnswer && ch.fate == FailsAfter
    ensures var (w', k') := Turn(w, k, ch);
            && k' == k.(pc := Fail(FailBegin, k.pc.reg, false, false))
            && w'.records == w.records && k.name in w'.vms && w'.vms[k.name] == k.id
  {}

  lemma FailBegun(w: World, k: Worker, ch: Choice)
    requires k.id in w.records && w.records[k.id].id == k.id && w.records[k.id].state == Bootstrapping
    requires k.pc.Fail? && k.pc.fail == FailBegin && !k.pc.remove && !k.pc.errors && ch.fate == Commits
    ensures var (w', k') := Turn(w, k, ch);
            && k' == k.(pc := Fail(FailRunner, k.pc.reg, false, false)) && w'.vms == w.vms
            && k.id in w'.records && w'.records[k.id].id == k.id && w'.records[k.id].state == Cleaning
  {}

  lemma FailDeleted(w: World, k: Worker, ch: Choice)
    requires k.pc.Fail? && (k.pc.fail == FailRunner || k.pc.fail == FailVm) && !k.pc.remove && !k.pc.errors
    requires ch.fate == Commits
    ensures var (w', k') := Turn(w, k, ch);
            && k' == k.(pc := Fail(if k.pc.fail == FailRunner then FailVm else FailEnd, k.pc.reg, false, false))
            && w'.vms == w.vms && w'.records == w.records
  {}

  lemma FailEnded(w: World, k: Worker, ch: Choice)
    requires k.id in w.records && w.records[k.id].id == k.id && w.records[k.id].state == Cleaning
    requires k.pc.Fail? && k.pc.fail == FailEnd && !k.pc.errors && ch.fate == Commits
    ensures var (w', k') := Turn(w, k, ch);
            k'.pc.Done? && w'.vms == w.vms && k.id in w'.records && w'.records[k.id].state == Finished
  {}

  lemma FourTurns(w: World, k: Worker, c: seq<Choice>, a: (World, Worker), b: (World, Worker), d: (World, Worker),
                  e: (World, Worker))
    requires |c| == 4
    requires a == Turn(w, k, c[0]) && b == Turn(a.0, a.1, c[1])
    requires d == Turn(b.0, b.1, c[2]) && e == Turn(d.0, d.1, c[3])
    ensures Turns(w, k, c) == e
  {
    var c1, c2, c3 := c[1..], c[1..][1..], c[1..][1..][1..];
    assert Turns(d.0, d.1, c3) == Turns(e.0, e.1, c3[1..]) == e;
    assert Turns(b.0, b.1, c2) == Turns(d.0, d.1, c3);
    assert Turns(a.0, a.1, c1) == Turns(b.0, b.1, c2);
  }

  /** A compensation that meets no error, and that deletes no VM. */
  lemma FineCompensation(w: World, k: Worker, fine: Choice)
    requires k.id in w.records && w.records[k.id].id == k.id && w.records[k.id].state == Bootstrapping
    requires k.pc.Fail? && k.pc.fail == FailBegin && !k.pc.remove && !k.pc.errors && fine.fate == Commits
    ensures var (w', k') := Turns(w, k, [fine, fine, fine, fine]);
            && k'.pc.Done? && w'.vms == w.vms && k.id in w'.records && w'.records[k.id].state == Finished
  {
    hide Turn, Turns;
    var t1 := Turn(w, k, fine);
    FailBegun(w, k, fine);
    var t2 := Turn(t1.0, t1.1, fine);
    FailDeleted(t1.0, t1.1, fine);
    var t3 := Turn(t2.0, t2.1, fine);
    FailDeleted(t2.0, t2.1, fine);
    var t4 := Turn(t3.0, t3.1, fine);
    FailEnded(t3.0, t3.1, fine);
    FourTurns(w, k, [fine, fine, fine, fine], t1, t2, t3, t4);
  }

  /** The exception is real: a create that took effect although its answer was an error, and
      then a compensation without any error, leave a Finished record with a running VM. */
  lemma AmbiguousCreateLeavesVm(w: World, k: Worker, ambiguous: Choice, fine: Choice)
    requires Sane(w) && Follows(w, k) && k.pc.Boot? && k.pc.boot == ToCreateAnswer
    requires ambiguous.fate == FailsAfter && fine.fate == Commits
    ensures var (w', k') := Turns(w, k, [ambiguous, fine, fine, fine, fine]);
            && k'.pc.Done? && k.id in w'.records && w'.records[k.id].state == Finished
            && k.name in w'.vms && w'.vms[k.name] == k.id
  {
    assert w.records[k.id].id == k.id && w.records[k.id].state == Bootstrapping;
    AmbiguousAnswer(w, k, ambiguous);
    var (w', k') := Turn(w, k, ambiguous);
    FineCompensation(w', k', fine);
    hide Turn, Follows, Sane;
    var choices := [ambiguous, fine, fine, fine, fine];
    assert choices[1..] == [fine, fine, fine, fine];
    assert Turns(w, k, choices) == Turns(w', k', choices[1..]);
  }

  /** A record can have a retry time without being in cleanup: if `fail` cannot begin the
      cleanup, the retry is scheduled all the same. */
  lemma LostBeginLeavesRetryTime(w: World, k: Worker, lost: Choice, fine: Choice)
    requires Follows(w, k) && k.pc.Fail? && k.pc.fail == FailBegin && !k.pc.remove && !k.pc.errors
    requires w.records[k.id].id == k.id && w.records[k.id].state == Bootstrapping
    requires lost.fate == FailsBefore && fine.fate == Commits
    ensures var (w', k') := Turns(w, k, [lost, fine, fine, fine]);
            && k'.pc.Done? && k.id in w'.records && w'.records[k.id].state == Bootstrapping
            && w'.records[k.id].retryAt == w.clock + Backoff.RETRY_BASE
  {
    var t1 := Turn(w, k, lost);
    assert t1.0 == w && t1.1 == k.(pc := Fail(FailRunner, k.pc.reg, false, true));
    var t2 := Turn(t1.0, t1.1, fine);
    assert t2.1 == k.(pc := Fail(FailVm, k.pc.reg, false, true));
    assert t2.0.records == w.records && t2.0.clock == w.clock;
    var t3 := Turn(t2.0, t2.1, fine);
    assert t3.0 == t2.0 && t3.1 == k.(pc := Fail(FailEnd, k.pc.reg, false, true));
    var t4 := Turn(t3.0, t3.1, fine);
    hide Turns, Follows;
    FourTurns(w, k, [lost, fine, fine, fine], t1, t2, t3, t4);
  }

  // ---- exactly when a finished record has left its VM behind ----

  ghost predicate AllFit(w: World, k: Worker, choices: seq<Choice>)
    decreases |choices|
  {
    choices == [] || (Fits(w, k, choices[0]) && var (w', k') := Turn(w, k, choices[0]); AllFit(w', k', choices[1..]))
  }

  /** What became of the create request of a goroutine's run, once it is answered. */
  function CreateAnswer(w: World, k: Worker, choices: seq<Choice>): Option<Fate>
    decreases |choices|
  {
    if choices == [] then None
    else if k.pc.Boot? && k.pc.boot == ToCreateAnswer then Some(choices[0].fate)
    else
      var (w', k') := Turn(w, k, choices[0]);
      CreateAnswer(w', k', choices[1..])
  }

  /** What a goroutine leaves behind, at each of its calls; `ambiguous` says that its create
      took effect although the answer was an error. */
  ghost predicate Leaves(w: World, k: Worker, ambiguous: bool) {
    match k.pc
    case Boot(at, _) => !ambiguous && (BootRank(at) <= 5 ==> k.name !in w.vms)
    case Fail(_, _, remove, _) => if remove then !ambiguous else k.name in w.vms <==> ambiguous
    case Clean(_, _) => !ambiguous
    case Done(_) => k.id in w.records && w.records[k.id].state == Finished ==> (k.name in w.vms <==> ambiguous)
  }

  lemma BootLeaves(w: World, k: Worker, ch: Choice)
    requires Follows(w, k) && k.pc.Boot? && Leaves(w, k, false)
    ensures var (w', k') := Turn(w, k, ch); Leaves(w', k', k.pc.boot == ToCreateAnswer && ch.fate == FailsAfter)
  {
    BootNeverFinishes(w, k, ch);
  }

  lemma FailEndLeaves(w: World, k: Worker, ch: Choice, ambiguous: bool)
    requires Follows(w, k) && k.pc.Fail? && k.pc.fail == FailEnd && Leaves(w, k, ambiguous)
    ensures var (w', k') := Turn(w, k, ch); Leaves(w', k', ambiguous)
  {}

  lemma FailLeaves(w: World, k: Worker, ch: Choice, ambiguous: bool)
    requires Follows(w, k) && k.pc.Fail? && Leaves(w, k, ambiguous)
    ensures var (w', k') := Turn(w, k, ch); Leaves(w', k', ambiguous)
  {
    if k.pc.fail == FailEnd {
      FailEndLeaves(w, k, ch, ambiguous);
    }
  }

  lemma CleanLeaves(w: World, k: Worker, ch: Choice)
    requires Follows(w, k) && k.pc.Clean? && Leaves(w, k, false)
    ensures var (w', k') := Turn(w, k, ch); Leaves(w', k', false)
  {}

  lemma TurnLeaves(w: World, k: Worker, ch: Choice, ambiguous: bool)
    requires Follows(w, k) && Leaves(w, k, ambiguous)
    ensures var (w', k') := Turn(w, k, ch);
            Leaves(w', k', if k.pc.Boot? && k.pc.boot == ToCreateAnswer then ch.fate == FailsAfter else ambiguous)
  {
    match k.pc
    case Boot(_, _) => BootLeaves(w, k, ch);
    case Fail(_, _, _, _) => FailLeaves(w, k, ch, ambiguous);
    case Clean(_, _) => CleanLeaves(w, k, ch);
    case Done(_) =>
  }

  lemma TurnFollows(w: World, k: Worker, ch: Choice)
    requires Follows(w, k) && Fits(w, k, ch)
    ensures var (w', k') := Turn(w, k, ch); Follows(w', k') && k'.id == k.id && k'.name == k.name
  {
    StepSafe(w, k, ch);
  }

  lemma {:induction false} TurnsLeave(w: World, k: Worker, choices: seq<Choice>, ambiguous: bool)
    requires Follows(w, k) && AllFit(w, k, choices) && Leaves(w, k, ambiguous)
    ensures var (w', k') := Turns(w, k, choices);
            var answer := CreateAnswer(w, k, choices);
            Follows(w', k') && k'.id == k.id && k'.name == k.name &&
            Leaves(w', k', if answer.Some? then answer == Some(FailsAfter) else ambiguous)
    decreases |choices|
  {
    if choices != [] {
      var (w', k') := Turn(w, k, choices[0]);
      TurnFollows(w, k, choices[0]);
      TurnLeaves(w, k, choices[0], ambiguous);
      if k.pc.Boot? && k.pc.boot == ToCreateAnswer {
        TurnsLeave(w', k', choices[1..], choices[0].fate == FailsAfter);
        AnsweredOnce(w', k', choices[1..]);
      } else {
        TurnsLeave(w', k', choices[1..], ambiguous);
      }
    }
  }

  /** A create request is answered once. */
  lemma {:induction false} AnsweredOnce(w: World, k: Worker, choices: seq<Choice>)
    requires k.pc.Boot? ==> BootRank(k.pc.boot) > 5
    ensures CreateAnswer(w, k, choices) == None
    decreases |choices|
  {
    if choices != [] {
      var (w', k') := Turn(w, k, choices[0]);
      BootGoesOn(w, k, choices[0]);
      AnsweredOnce(w', k', choices[1..]);
    }
  }

  lemma BootGoesOn(w: World, k: Worker, ch: Choice)
    requires k.pc.Boot? ==> BootRank(k.pc.boot) > 5
    ensures var pc := Step(w, k, ch).pc; pc.Boot? ==> BootRank(pc.boot) > 5
  {}

  /** The whole run of a goroutine, from its first call, with every outcome of every call: if
      it ends with its record Finished, its VM is left behind if and only if the create took
      effect and was answered with an error. */
  lemma LeavesVmExactly(w: World, k: Worker, choices: seq<Choice>)
    requires Follows(w, k) && k.pc == Boot(ToStageRegister, 0) && AllFit(w, k, choices)
    ensures var (w', k') := Turns(w, k, choices);
            k.id in w'.records &&
            (k'.pc.Done? && w'.records[k.id].state == Finished ==>
               (k.name in w'.vms <==> CreateAnswer(w, k, choices) == Some(FailsAfter)))
  {
    TurnsLeave(w, k, choices, false);
  }

  // ---- what the end of a goroutine says about its record ----

  /** The status of the goroutine's runner at the moment it looked, None if it was gone. */
  function Seen(w: World, k: Worker, choices: seq<Choice>): Option<Option<RunnerStatus>>
    decreases |choices|
  {
    if choices == [] then None
    else if k.pc.Boot? && k.pc.boot == ToAwait then
      Some(if k.pc.reg in w.runners then Some(w.runners[k.pc.reg]) else None)
    else
      var (w', k') := Turn(w, k, choices[0]);
      Seen(w', k', choices[1..])
  }

  /** The run has gone through `fail`. */
  predicate Compensates(w: World, k: Worker, choices: seq<Choice>)
    decreases |choices|
  {
    k.pc.Fail? ||
    (choices != [] && var (w', k') := Turn(w, k, choices[0]); Compensates(w', k', choices[1..]))
  }

  /** What a goroutine has made of the status it saw. */
  ghost predicate Adopts(x: Instance, pc: Pc, seen: Option<Option<RunnerStatus>>) {
    match pc
    case Boot(at, _) =>
      && (at == ToMarkReady ==> seen == Some(Some(RunnerIdle)))
      && (at == ToMarkRunning ==> seen == Some(Some(RunnerActive)))
    case Fail(_, _, _, _) => true
    case Clean(_, _) => seen == Some(None)
    case Done(succeeded) =>
      succeeded ==>
        || (x.state == Ready && x.runner != 0 && seen == Some(Some(RunnerIdle)))
        || (x.state == Running && x.runner != 0 && seen == Some(Some(RunnerActive)))
        || (x.state == Finished && JobOver(x) && seen == Some(None))
  }

  /** What is seen at this call, or was seen before. */
  function Sees(w: World, k: Worker, seen: Option<Option<RunnerStatus>>): Option<Option<RunnerStatus>> {
    if k.pc.Boot? && k.pc.boot == ToAwait
    then Some(if k.pc.reg in w.runners then Some(w.runners[k.pc.reg]) else None)
    else seen
  }

  lemma BootAdopts(w: World, k: Worker, ch: Choice, seen: Option<Option<RunnerStatus>>)
    requires Follows(w, k) && Fits(w, k, ch) && k.pc.Boot? && Adopts(w.records[k.id], k.pc, seen)
    ensures var (w', k') := Turn(w, k, ch); k.id in w'.records && Adopts(w'.records[k.id], k'.pc, Sees(w, k, seen))
  {
    if k.pc.boot == ToMarkReady || k.pc.boot == ToMarkRunning {
      MarkAdopts(w, k, ch, seen);
    } else {
      TurnFollows(w, k, ch);
      hide Follows, Fits;
      NextLook(w, k, ch);
    }
  }

  lemma NextLook(w: World, k: Worker, ch: Choice)
    requires k.pc.Boot? && k.pc.boot != ToMarkReady && k.pc.boot != ToMarkRunning
    ensures var pc := Step(w, k, ch).pc;
            && (pc.Boot? && pc.boot == ToMarkReady <==> k.pc.boot == ToAwait && ch.sight == SeesIdle)
            && (pc.Boot? && pc.boot == ToMarkRunning <==> k.pc.boot == ToAwait && ch.sight == SeesActive)
            && (pc.Clean? <==> k.pc.boot == ToAwait && ch.sight == SeesMissing)
            && pc != Done(true)
  {}

  lemma MarkAdopts(w: World, k: Worker, ch: Choice, seen: Option<Option<RunnerStatus>>)
    requires Follows(w, k) && k.pc.Boot? && (k.pc.boot == ToMarkReady || k.pc.boot == ToMarkRunning)
    requires Adopts(w.records[k.id], k.pc, seen)
    ensures var (w', k') := Turn(w, k, ch); k.id in w'.records && Adopts(w'.records[k.id], k'.pc, seen)
  {
    hide Placed, StageFits, MergeError;
  }

  lemma CleanAdopts(w: World, k: Worker, ch: Choice, seen: Option<Option<RunnerStatus>>)
    requires Follows(w, k) && k.pc.Clean? && Adopts(w.records[k.id], k.pc, seen)
    ensures var (w', k') := Turn(w, k, ch); k.id in w'.records && Adopts(w'.records[k.id], k'.pc, seen)
  {}

  lemma FailAdopts(w: World, k: Worker, ch: Choice)
    requires k.pc.Fail?
    ensures var pc := Step(w, k, ch).pc; pc.Fail? || pc == Done(false)
  {}

  lemma TurnAdopts(w: World, k: Worker, ch: Choice, seen: Option<Option<RunnerStatus>>)
    requires Follows(w, k) && Fits(w, k, ch) && Adopts(w.records[k.id], k.pc, seen)
    ensures var (w', k') := Turn(w, k, ch); k.id in w'.records && Adopts(w'.records[k.id], k'.pc, Sees(w, k, seen))
  {
    TurnFollows(w, k, ch);
    match k.pc
    case Boot(_, _) => BootAdopts(w, k, ch, seen);
    case Fail(_, _, _, _) => FailAdopts(w, k, ch);
    case Clean(_, _) => CleanAdopts(w, k, ch, seen);
    case Done(_) =>
  }

  lemma {:induction false} TurnsAdopt(w: World, k: Worker, choices: seq<Choice>, seen: Option<Option<RunnerStatus>>)
    requires Follows(w, k) && AllFit(w, k, choices) && Adopts(w.records[k.id], k.pc, seen)
    ensures var (w', k') := Turns(w, k, choices);
            var look := Seen(w, k, choices);
            Follows(w', k') && k'.id == k.id && Adopts(w'.records[k.id], k'.pc, if look.Some? then look else seen)
    decreases |choices|
  {
    if choices != [] {
      var (w', k') := Turn(w, k, choices[0]);
      TurnFollows(w, k, choices[0]);
      TurnAdopts(w, k, choices[0], seen);
      TurnsAdopt(w', k', choices[1..], Sees(w, k, seen));
      if k.pc.Boot? && k.pc.boot == ToAwait {
        SeenOnce(w', k', choices[1..]);
      }
    }
  }

  /** The runner is looked at until it shows a status, and then no more. */
  lemma {:induction false} SeenOnce(w: World, k: Worker, choices: seq<Choice>)
    requires k.pc.Boot? ==> BootRank(k.pc.boot) > 11
    ensures Seen(w, k, choices) == None
    decreases |choices|
  {
    if choices != [] {
      var (w', k') := Turn(w, k, choices[0]);
      NoLookLater(w, k, choices[0]);
      SeenOnce(w', k', choices[1..]);
    }
  }

  lemma NoLookLater(w: World, k: Worker, ch: Choice)
    requires k.pc.Boot? ==> BootRank(k.pc.boot) > 11
    ensures var pc := Step(w, k, ch).pc; pc.Boot? ==> BootRank(pc.boot) > 11
  {}

  /** In `fail` or behind it. */
  ghost predicate Failing(w: World, k: Worker) {
    (k.pc.Fail? || k.pc == Done(false)) && k.id in w.records && !JobOver(w.records[k.id])
  }

  lemma FailingTurn(w: World, k: Worker, ch: Choice)
    requires Follows(w, k) && Fits(w, k, ch) && Failing(w, k)
    ensures var (w', k') := Turn(w, k, ch); Failing(w', k')
  {
    if k.pc.Fail? {
      TurnFollows(w, k, ch);
      FailAdopts(w, k, ch);
      if k.pc.fail == FailEnd {
        LastOfFail(w, k, ch);
      }
    }
  }

  lemma LastOfFail(w: World, k: Worker, ch: Choice)
    requires Follows(w, k) && k.pc.Fail? && k.pc.fail == FailEnd && Failing(w, k)
    ensures var (w', k') := Turn(w, k, ch); Failing(w', k')
  {}

  lemma {:induction false} CompensatedFails(w: World, k: Worker, choices: seq<Choice>)
    requires Follows(w, k) && AllFit(w, k, choices) && Compensates(w, k, choices)
    ensures var (w', k') := Turns(w, k, choices); k'.id == k.id && Failing(w', k')
    decreases |choices|
  {
    if k.pc.Fail? {
      FailsOn(w, k, choices);
    } else {
      var (w', k') := Turn(w, k, choices[0]);
      TurnFollows(w, k, choices[0]);
      CompensatedFails(w', k', choices[1..]);
    }
  }

  lemma {:induction false} FailsOn(w: World, k: Worker, choices: seq<Choice>)
    requires Follows(w, k) && AllFit(w, k, choices) && Failing(w, k)
    ensures var (w', k') := Turns(w, k, choices); k'.id == k.id && Failing(w', k')
    decreases |choices|
  {
    if choices != [] {
      var (w', k') := Turn(w, k, choices[0]);
      TurnFollows(w, k, choices[0]);
      FailingTurn(w, k, choices[0]);
      FailsOn(w', k', choices[1..]);
    }
  }

  lemma {:induction false} DoneStays(w: World, k: Worker, choices: seq<Choice>)
    requires k.pc.Done?
    ensures Turns(w, k, choices) == (w, k)
    decreases |choices|
  {
    if choices != [] {
      assert Turn(w, k, choices[0]) == (w, k);
      DoneStays(w, k, choices[1..]);
    }
  }

  lemma FirstCall(w: World, k: Worker, ch: Choice)
    requires Follows(w, k) && Fits(w, k, ch) && k.pc == Boot(ToStageRegister, 0) && ch.fate == Commits
    ensures var (w', k') := Turn(w, k, ch); Follows(w', k') && k'.pc == Boot(ToRegister, 0)
  {
    TurnFollows(w, k, ch);
  }

  lemma BootLeads(w: World, k: Worker, ch: Choice)
    requires Follows(w, k) && Fits(w, k, ch) && k.pc.Boot? && k.pc.boot != ToStageRegister
    ensures var pc := Step(w, k, ch).pc;
            && pc != Done(false) && (pc.Boot? ==> pc.boot != ToStageRegister)
            && (pc.Clean? ==> k.pc.boot == ToAwait && k.pc.reg !in w.runners)
            && (pc.Boot? && k.pc.boot == ToAwait ==> BootRank(pc.boot) > 11)
  {}

  /** After its first call a goroutine fails in no other way than through `fail`, or in the
      cleanup of a job that was over. */
  lemma {:induction false} FailureHasCause(w: World, k: Worker, choices: seq<Choice>)
    requires Follows(w, k) && AllFit(w, k, choices) && k.pc.Boot? && k.pc.boot != ToStageRegister
    ensures Turns(w, k, choices).1.pc == Done(false) ==>
              Compensates(w, k, choices) || Seen(w, k, choices) == Some(None)
    decreases |choices|
  {
    if choices != [] {
      var (w', k') := Turn(w, k, choices[0]);
      TurnFollows(w, k, choices[0]);
      BootLeads(w, k, choices[0]);
      hide Follows, Fits, Step;
      if k'.pc.Boot? {
        FailureHasCause(w', k', choices[1..]);
        if k.pc.boot == ToAwait {
          SeenOnce(w', k', choices[1..]);
        }
      } else if k'.pc.Done? {
        DoneStays(w', k', choices[1..]);
      }
    }
  }

  /** A deletion that fails in the goroutine's cleanup is followed by a retry, and every retry
      a goroutine schedules is counted and lies five seconds ahead. */
  lemma GoroutineRetries(w: World, k: Worker, ch: Choice)
    requires Follows(w, k)
    ensures var m, x := Step(w, k, ch), w.records[k.id];
            && (k.pc.Clean? && (k.pc.clean == CleanRunner || k.pc.clean == CleanVm) && ch.fate != Commits ==>
                  m.pc == Clean(CleanRetry, k.pc.reg))
            && (k.pc.Clean? && k.pc.clean == CleanRetry && ch.fate != FailsBefore ==> m.effect.Write?)
            && (k.pc.Fail? && k.pc.fail == FailEnd && k.pc.errors && ch.fate != FailsBefore ==> m.effect.Write?)
            && (m.effect.Write? ==>
                  var retries := (k.pc.Clean? && k.pc.clean == CleanRetry) ||
                                 (k.pc.Fail? && k.pc.fail == FailEnd && k.pc.errors);
                  && (retries ==>
                        && m.effect.row.retryCount == x.retryCount + 1
                        && m.effect.row.retryAt == w.clock + 5_000_000_000)
                  && (!retries ==> m.effect.row.retryCount <= x.retryCount))
  {}

  /** What went wrong is in the record: the cause, unless there is an error text already, and
      what went wrong in the compensation. */
  lemma CauseRecorded(w: World, k: Worker, ch: Choice)
    requires Follows(w, k) && Step(w, k, ch).effect.Write?
    ensures var row, x := Step(w, k, ch).effect.row, w.records[k.id];
            && (k.pc.Fail? && k.pc.fail == FailBegin ==> row.error == if x.error == "" then ch.message else x.error)
            && ((k.pc.Fail? && k.pc.fail == FailEnd && k.pc.errors) || (k.pc.Clean? && k.pc.clean == CleanRetry) ==>
                  x.error <= row.error && Contains(row.error, ch.message))
  {
    MergeErrorKeeps(w.records[k.id].error, ch.message);
  }

  /** The whole run of a goroutine. One that reports a success has adopted what it saw: its
      record is Ready and its runner was idle, or Running and it was active, or its job was
      over and the runner gone, and the record Finished. One that went through `fail` reports
      none, and its record never says that a job was completed. One that fails otherwise had no
      runner yet, or found the runner gone. */
  lemma SuccessMeans(w: World, k: Worker, choices: seq<Choice>)
    requires Follows(w, k) && k.pc == Boot(ToStageRegister, 0) && AllFit(w, k, choices)
    ensures var (w', k') := Turns(w, k, choices);
            && k.id in w'.records
            && (k'.pc == Done(true) ==>
                  && Adopts(w'.records[k.id], k'.pc, Seen(w, k, choices))
                  && !Compensates(w, k, choices))
            && (Compensates(w, k, choices) && k'.pc.Done? ==>
                  k'.pc == Done(false) && !JobOver(w'.records[k.id]))
            && (k'.pc == Done(false) ==>
                  || Compensates(w, k, choices) || Seen(w, k, choices) == Some(None)
                  || choices[0].fate != Commits)
  {
    TurnsAdopt(w, k, choices, None);
    if choices != [] && choices[0].fate == Commits {
      FirstCall(w, k, choices[0]);
      var (w', k') := Turn(w, k, choices[0]);
      FailureHasCause(w', k', choices[1..]);
    }
    if Compensates(w, k, choices) {
      CompensatedFails(w, k, choices);
    }
  }
}
