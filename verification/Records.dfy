/** The instance record and the changes the store can make to it. */
module Records {
  import opened Lifecycle

  datatype Instance = Instance(
    id: string,
    name: string,
    pool: string,
    state: State,
    stage: Stage,
    result: Result,
    reason: Reason,
    runner: int,            // Forgejo runner ID, 0 while unknown
    error: string,
    retryCount: nat,
    retryAt: Time,
    createdAt: Time,
    stateChangedAt: Time)

  /** One guarded change of a record: the closures that `mutate` receives. */
  datatype Call =
    | SetRegistration(runner: int)
    | SetStage(stage: Stage)
    | MarkReady
    | MarkRunning
    | BeginCleanup(result: Result, reason: Reason, message: string)
    | FinishCleanup
    | Retry(message: string, at: Time)

  predicate OccursAt(text: string, part: string, i: int) {
    0 <= i <= |text| - |part| && text[i..i + |part|] == part
  }

  predicate Contains(text: string, part: string) {
    exists i | 0 <= i <= |text| :: OccursAt(text, part, i)
  }

  /** How a later cleanup error is added to the text already stored. */
  function MergeError(current: string, next: string): string {
    if current == "" then next
    else if next == "" || Contains(current, next) then current
    else current + "\ncleanup: " + next
  }

  /** The stored text survives as a prefix, the new text is somewhere in the result, and a
      deletion that keeps failing in the same way does not make the text grow. */
  lemma MergeErrorKeeps(current: string, next: string)
    ensures current <= MergeError(current, next)
    ensures Contains(MergeError(current, next), next)
    ensures MergeError(MergeError(current, next), next) == MergeError(current, next)
  {
    var merged := MergeError(current, next);
    if current == "" || next == "" {
      assert OccursAt(merged, next, 0);
    } else if !Contains(current, next) {
      assert OccursAt(merged, next, |current + "\ncleanup: "|);
    }
    assert Contains(merged, next);
  }

  function Operational(current: Instance, state: State): Option<Instance> {
    if !CanTransition(current.state, state) then None
    else Some(current.(state := state, stage := NoStage, retryCount := 0, retryAt := 0, error := ""))
  }

  /** The record after an accepted call, or None where the store refuses it. */
  function Change(current: Instance, call: Call): Option<Instance> {
    match call
    case SetRegistration(runner) =>
      Some(current.(runner := runner, stage := StageRegisterRunner, retryCount := 0, retryAt := 0, error := ""))
    case SetStage(stage) =>
      if current.state != Bootstrapping && current.state != Cleaning then None
      else Some(current.(stage := stage))
    case MarkReady => Operational(current, Ready)
    case MarkRunning => Operational(current, Running)
    case BeginCleanup(result, reason, message) =>
      if !CanTransition(current.state, Cleaning) then None
      else Some(current.(
        state := Cleaning,
        stage := StageDeleteRunner,
        result := if current.result == NoResult then result else current.result,
        reason := if current.reason == NoReason then reason else current.reason,
        error := if current.error == "" then message else current.error))
    case FinishCleanup =>
      if !CanTransition(current.state, Finished) then None
      else Some(current.(state := Finished, stage := NoStage, retryAt := 0))
    case Retry(message, at) =>
      Some(current.(retryCount := current.retryCount + 1, retryAt := at, error := MergeError(current.error, message)))
  }

  /** The row that is written: the state's own timestamp moves only with the state. */
  function Stamp(before: Instance, after: Instance, now: Time): Instance {
    if before.state == after.state then after else after.(stateChangedAt := now)
  }

  /** What an accepted call does to the lifecycle, whatever the call. */
  lemma ChangeFollowsLifecycle(current: Instance, call: Call)
    ensures var r := Change(current, call);
            r.Some? ==>
              && CanTransition(current.state, r.value.state)
              && r.value.id == current.id && r.value.name == current.name && r.value.pool == current.pool
              && r.value.createdAt == current.createdAt
              && r.value.runner == if call.SetRegistration? then call.runner else current.runner
  {}

  /** The states from which the store accepts a call. */
  lemma AcceptedFrom(current: Instance, call: Call)
    ensures Change(current, call).Some? <==>
              match call
              case SetRegistration(_) => true
              case SetStage(_) => current.state in {Bootstrapping, Cleaning}
              case MarkReady => current.state in {Bootstrapping, Ready}
              case MarkRunning => current.state in {Bootstrapping, Ready, Running}
              case BeginCleanup(_, _, _) => current.state != Finished
              case FinishCleanup => current.state in {Cleaning, Finished}
              case Retry(_, _) => true
  {}

  /** What an accepted call is for, and that it is for nothing else: the registration forgets
      earlier failures, as does the mark of a state, a cleanup keeps the outcome that is there
      already, and only a retry counts. */
  lemma AcceptedStores(current: Instance, call: Call)
    ensures var r := Change(current, call);
            r.Some? ==>
              var x := r.value;
              && (call.SetStage? ==> x == current.(stage := call.stage))
              && (call.SetRegistration? || call.MarkReady? || call.MarkRunning? ==>
                    && x.retryCount == 0 && x.retryAt == 0 && x.error == ""
                    && x.result == current.result && x.reason == current.reason)
              && (call.MarkReady? ==> x.state == Ready && x.stage == NoStage)
              && (call.MarkRunning? ==> x.state == Running && x.stage == NoStage)
              && (call.BeginCleanup? ==>
                    && x.state == Cleaning && x.stage == StageDeleteRunner
                    && (current.result == NoResult ==> x.result == call.result)
                    && (current.result != NoResult ==> x.result == current.result)
                    && (current.reason == NoReason ==> x.reason == call.reason)
                    && (current.reason != NoReason ==> x.reason == current.reason)
                    && (current.error == "" ==> x.error == call.message)
                    && (current.error != "" ==> x.error == current.error)
                    && x.retryCount == current.retryCount && x.retryAt == current.retryAt)
              && (call.FinishCleanup? ==>
                    x == current.(state := Finished, stage := NoStage, retryAt := 0))
              && (call.Retry? ==>
                    && x.state == current.state && x.result == current.result && x.reason == current.reason
                    && x.retryCount == current.retryCount + 1 && x.retryAt == call.at
                    && current.error <= x.error && Contains(x.error, call.message))
  {
    if call.Retry? {
      MergeErrorKeeps(current.error, call.message);
    }
  }

  /** The state's own timestamp moves exactly when the state does, and nothing else does. */
  lemma Stamped(before: Instance, after: Instance, now: Time)
    ensures var row := Stamp(before, after, now);
            && row == after.(stateChangedAt := row.stateChangedAt)
            && (before.state != after.state ==> row.stateChangedAt == now)
            && (before.state == after.state ==> row.stateChangedAt == after.stateChangedAt)
  {}

  /** From the first accepted BeginCleanup on, result and reason stay what they are and the
      error text only grows. SetRegistration is the one call without this property; it is
      issued only while a record is Bootstrapping. */
  lemma CleanupOutcomeFixed(current: Instance, call: Call)
    requires current.state == Cleaning || current.state == Finished
    requires !call.SetRegistration?
    ensures var r := Change(current, call);
            r.Some? ==>
              && (r.value.state == Cleaning || r.value.state == Finished)
              && (current.result != NoResult ==> r.value.result == current.result)
              && (current.reason != NoReason ==> r.value.reason == current.reason)
              && current.error <= r.value.error
  {
    if call.Retry? {
      MergeErrorKeeps(current.error, call.message);
    }
  }
}
