/** The lifecycle of one runner VM: its states, the transitions the store accepts,
    and what any chain of accepted transitions can look like. */
module Lifecycle {

  /** Instants and durations are whole nanoseconds. Zero is Go's zero time, which the
      database stores as NULL and the code reads as "not set". */
  type Time = int

  const SECOND: Time := 1_000_000_000

  datatype Option<+T> = None | Some(value: T)

  datatype State = Bootstrapping | Ready | Running | Cleaning | Finished

  datatype Result = NoResult | Succeeded | Failed

  datatype Reason =
    | NoReason
    | JobCompleted
    | IdleTimeout
    | MaxLifetime
    | BootstrapFailed
    | RunnerOffline
    | InstanceMissing
    | ControllerRecovery

  datatype Stage =
    | NoStage
    | StageController
    | StageLoadInstances
    | StageCollectOrphans
    | StageFetchJobs
    | StageScaleDown
    | StageRegisterRunner
    | StageCreateInstance
    | StageWaitAgent
    | StageWaitCloudInit
    | StagePushRunnerConfig
    | StageWaitRunner
    | StageObserveRunner
    | StageDeleteRunner
    | StageDeleteInstance
    | StagePersistState

  datatype FailureCode =
    | NoCode
    | Timeout
    | Canceled
    | Unauthorized
    | Forbidden
    | NotFound
    | Unavailable
    | Conflict
    | Database
    | Interrupted
    | Unknown

  predicate CanTransition(from: State, to: State) {
    from == to ||
    match from
    case Bootstrapping => to == Ready || to == Running || to == Cleaning
    case Ready => to == Running || to == Cleaning
    case Running => to == Cleaning
    case Cleaning => to == Finished
    case Finished => false
  }

  /** Position on the way to Finished. */
  function Rank(state: State): nat {
    match state
    case Bootstrapping => 0
    case Ready => 1
    case Running => 2
    case Cleaning => 3
    case Finished => 4
  }

  ghost predicate Chain(states: seq<State>) {
    forall i :: 0 < i < |states| ==> CanTransition(states[i - 1], states[i])
  }

  /** The number of links of a chain that change the state. */
  function Changes(states: seq<State>): nat {
    if |states| < 2 then 0
    else Changes(states[..|states| - 1]) + if states[|states| - 2] == states[|states| - 1] then 0 else 1
  }

  /** Along a chain the rank never falls, and each state change uses up at least one of
      the four ranks: no record changes state more than four times. */
  lemma {:induction false} ChainClimbs(states: seq<State>)
    requires |states| > 0 && Chain(states)
    ensures Changes(states) + Rank(states[0]) <= Rank(states[|states| - 1])
    ensures Changes(states) <= 4
  {
    if |states| > 1 {
      var init := states[..|states| - 1];
      assert Chain(init) by {
        forall i | 0 < i < |init| ensures CanTransition(init[i - 1], init[i]) {
          assert CanTransition(states[i - 1], states[i]);
        }
      }
      ChainClimbs(init);
      assert CanTransition(states[|states| - 2], states[|states| - 1]);
    }
  }

  /** Finished is final, and a job that was running never makes its VM ready again. */
  lemma {:induction false} ChainNeverReturns(states: seq<State>, i: nat, j: nat)
    requires Chain(states) && i <= j < |states|
    ensures Rank(states[i]) <= Rank(states[j])
    ensures states[i] == Finished ==> states[j] == Finished
    ensures states[i] == Running ==> states[j] != Ready && states[j] != Bootstrapping
    ensures states[j] == Finished && states[i] != Finished ==>
              exists k :: i <= k < j && states[k] == Cleaning
    decreases j - i
  {
    if i < j {
      ChainNeverReturns(states, i, j - 1);
      assert CanTransition(states[j - 1], states[j]);
    }
  }
}
