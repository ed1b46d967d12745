/** The `instances` table with its append-only event log, and the claim that the log by
    itself tells the life of every record. */
module InstanceStore {
  import opened Lifecycle
  import opened Records

  datatype EventKind = Created | Registered | StageChanged | StateChanged | RetryScheduled

  /** A row of `instance_events`. `from` is None where the column is the empty string. */
  datatype Event = Event(
    instance: string,
    name: string,
    pool: string,
    kind: EventKind,
    from: Option<State>,
    to: State,
    stage: Stage,
    result: Result,
    reason: Reason,
    message: string)

  /** What becomes of a transaction that the database was asked to commit. */
  datatype Fate = Commits | FailsBefore | FailsAfter

  /** `names` is the UNIQUE index on `instances.name`. */
  datatype Tables = Tables(instances: map<string, Instance>, names: set<string>, events: seq<Event>)

  const EMPTY := Tables(map[], {}, [])

  datatype Operation =
    | Create(record: Instance)
    | Mutate(id: string, call: Call)

  function Kind(call: Call): EventKind {
    match call
    case SetRegistration(_) => Registered
    case SetStage(_) => StageChanged
    case Retry(_, _) => RetryScheduled
    case _ => StateChanged
  }

  /** The kind of an event tells what has happened to the record: a new runner, one more
      failure, a change of state, or nothing but a new stage. */
  lemma KindMeans(before: Instance, call: Call)
    requires Change(before, call).Some?
    ensures var after, kind := Change(before, call).value, Kind(call);
            && (after.runner != before.runner ==> kind == Registered)
            && (after.retryCount > before.retryCount <==> kind == RetryScheduled)
            && (after.state != before.state ==> kind == StateChanged)
            && (kind == Registered ==> call.SetRegistration?)
            && (kind == StageChanged ==> after == before.(stage := after.stage))
  {}

  function EventOf(record: Instance, kind: EventKind, from: Option<State>): Event {
    Event(record.id, record.name, record.pool, kind, from, record.state,
          record.stage, record.result, record.reason, record.error)
  }

  /** The row an INSERT writes: retry columns and timestamps take their defaults. */
  function Inserted(record: Instance, now: Time): Instance {
    record.(retryCount := 0, retryAt := 0, createdAt := now, stateChangedAt := now)
  }

  /** The tables after the operation commits, or None if the store refuses it. */
  function Committed(t: Tables, op: Operation, now: Time): Option<Tables> {
    match op
    case Create(record) =>
      if record.id == "" || record.name == "" || record.pool == "" then None
      else if record.id in t.instances || record.name in t.names then None
      else
        var row := Inserted(record, now);
        Some(Tables(t.instances[row.id := row], t.names + {row.name},
                    t.events + [EventOf(row, EventKind.Created, None)]))
    case Mutate(id, call) =>
      if id !in t.instances then None
      else
        var before := t.instances[id];
        match Change(before, call)
        case None => None
        case Some(after) =>
          if before == after then Some(t)
          else
            var row := Stamp(before, after, now);
            Some(Tables(t.instances[id := row], t.names, t.events + [EventOf(row, Kind(call), Some(before.state))]))
  }

  function After(t: Tables, op: Operation, fate: Fate, now: Time): Tables {
    match Committed(t, op, now)
    case None => t
    case Some(t') => if fate == FailsBefore then t else t'
  }

  class InstanceStore {
    var instances: map<string, Instance>
    var names: set<string>
    var events: seq<Event>

    function View(): Tables
      reads this
    {
      Tables(instances, names, events)
    }

    constructor ()
      ensures View() == EMPTY
    {
      instances, names, events := map[], {}, [];
    }

    method Create(record: Instance, fate: Fate, now: Time) returns (ok: bool)
      modifies this
      ensures View() == After(old(View()), Operation.Create(record), fate, now)
      ensures ok <==> fate == Commits && Committed(old(View()), Operation.Create(record), now).Some?
    {
      ok := false;
      if record.id == "" || record.name == "" || record.pool == "" {
        return;
      }
      if record.id in instances || record.name in names {
        return;
      }
      if fate == FailsBefore {
        return;
      }
      var row := Inserted(record, now);
      instances := instances[row.id := row];
      names := names + {row.name};
      events := events + [EventOf(row, EventKind.Created, None)];
      ok := fate == Commits;
    }

    method Mutate(id: string, call: Call, fate: Fate, now: Time) returns (ok: bool)
      modifies this
      ensures View() == After(old(View()), Operation.Mutate(id, call), fate, now)
      ensures ok <==> fate == Commits && Committed(old(View()), Operation.Mutate(id, call), now).Some?
    {
      ok := false;
      if id !in instances {
        return;
      }
      var before := instances[id];
      var change := Change(before, call);
      if change.None? {
        return;
      }
      var after := change.value;
      if fate == FailsBefore {
        return;
      }
      ok := fate == Commits;
      if before == after {
        return;
      }
      var row := Stamp(before, after, now);
      instances := instances[id := row];
      events := events + [EventOf(row, Kind(call), Some(before.state))];
    }
  }

  // ---- the log refines the table ----

  /** The events of one instance, oldest first. */
  function Log(events: seq<Event>, id: string): seq<Event> {
    if events == [] then []
    else
      var init := Log(events[..|events| - 1], id);
      if events[|events| - 1].instance == id then init + [events[|events| - 1]] else init
  }

  function ToStates(log: seq<Event>): (states: seq<State>)
    ensures |states| == |log|
    ensures forall i :: 0 <= i < |log| ==> states[i] == log[i].to
  {
    seq(|log|, i requires 0 <= i < |log| => log[i].to)
  }

  /** An unbroken log: it starts from nothing with a creation, each event starts where the
      previous one ended, and every link is a transition the lifecycle allows. */
  ghost predicate Unbroken(log: seq<Event>) {
    && |log| > 0
    && log[0].from == None
    && log[0].kind == EventKind.Created
    && forall i {:trigger log[i]} :: 0 < i < |log| ==>
         && log[i].from == Some(log[i - 1].to)
         && CanTransition(log[i - 1].to, log[i].to)
         && log[i].kind != EventKind.Created
         && (log[i].to != log[i - 1].to ==> log[i].kind == StateChanged)
  }

  /** The log ends with the record as it is stored. */
  ghost predicate Tells(log: seq<Event>, record: Instance) {
    && Unbroken(log)
    && var last := log[|log| - 1];
       && last.instance == record.id && last.name == record.name && last.pool == record.pool
       && last.to == record.state && last.stage == record.stage
       && last.result == record.result && last.reason == record.reason && last.message == record.error
  }

  ghost predicate LogAgrees(t: Tables) {
    && (forall id :: id in t.instances ==> t.instances[id].id == id && Tells(Log(t.events, id), t.instances[id]))
    && (forall e :: e in t.events ==> e.instance in t.instances)
    && (forall id :: id in t.instances ==> t.instances[id].name in t.names)
  }

  lemma LogAppend(events: seq<Event>, e: Event, id: string)
    ensures Log(events + [e], id) == if e.instance == id then Log(events, id) + [e] else Log(events, id)
  {
    assert (events + [e])[..|events|] == events;
  }

  lemma {:induction false} LogOfUnknown(events: seq<Event>, id: string)
    requires forall e :: e in events ==> e.instance != id
    ensures Log(events, id) == []
  {
    if events != [] {
      LogOfUnknown(events[..|events| - 1], id);
    }
  }

  /** One more event, starting where the log ends, carries the log to the new row. */
  lemma TellsExtends(log: seq<Event>, before: Instance, after: Instance, kind: EventKind)
    requires Tells(log, before)
    requires CanTransition(before.state, after.state) && kind != EventKind.Created
    requires after.state != before.state ==> kind == StateChanged
    ensures Tells(log + [EventOf(after, kind, Some(before.state))], after)
  {
    var log' := log + [EventOf(after, kind, Some(before.state))];
    forall i {:trigger log'[i]} | 0 < i < |log'|
      ensures log'[i].from == Some(log'[i - 1].to) && CanTransition(log'[i - 1].to, log'[i].to)
      ensures log'[i].kind != EventKind.Created
      ensures log'[i].to != log'[i - 1].to ==> log'[i].kind == StateChanged
    {
      if i < |log| {
        assert log[i].from == Some(log[i - 1].to);
      }
    }
  }

  /** A row and its event together keep the table and the log in agreement. */
  lemma RowAndEvent(t: Tables, row: Instance, e: Event)
    requires LogAgrees(t) && e.instance == row.id && Tells(Log(t.events, row.id) + [e], row)
    ensures LogAgrees(Tables(t.instances[row.id := row], t.names + {row.name}, t.events + [e]))
  {
    hide Tells, Log;
    var t' := Tables(t.instances[row.id := row], t.names + {row.name}, t.events + [e]);
    forall id | id in t'.instances
      ensures t'.instances[id].id == id && Tells(Log(t'.events, id), t'.instances[id])
    {
      LogAppend(t.events, e, id);
    }
  }

  lemma CreateKeepsLog(t: Tables, record: Instance, now: Time)
    requires LogAgrees(t)
    ensures var t' := Committed(t, Operation.Create(record), now); t'.Some? ==> LogAgrees(t'.value)
  {
    hide LogAgrees, Tells, Log;
    if Committed(t, Operation.Create(record), now).Some? {
      var row := Inserted(record, now);
      FirstEvent(t, row);
      RowAndEvent(t, row, EventOf(row, EventKind.Created, None));
    }
  }

  lemma FirstEvent(t: Tables, row: Instance)
    requires LogAgrees(t) && row.id !in t.instances
    ensures Tells(Log(t.events, row.id) + [EventOf(row, EventKind.Created, None)], row)
  {
    LogOfUnknown(t.events, row.id);
  }

  lemma MutateKeepsLog(t: Tables, id: string, call: Call, now: Time)
    requires LogAgrees(t)
    ensures var t' := Committed(t, Operation.Mutate(id, call), now); t'.Some? ==> LogAgrees(t'.value)
  {
    hide LogAgrees, Tells, Log, Change, Kind;
    if id in t.instances && Change(t.instances[id], call).Some? {
      var before := t.instances[id];
      var row := Stamp(before, Change(before, call).value, now);
      var e := EventOf(row, Kind(call), Some(before.state));
      ChangeFollowsLifecycle(before, call);
      KindOfChange(before, call);
      AgreesAt(t, id);
      assert t.names + {row.name} == t.names;
      TellsExtends(Log(t.events, id), before, row, Kind(call));
      RowAndEvent(t, row, e);
    }
  }

  lemma AgreesAt(t: Tables, id: string)
    requires LogAgrees(t) && id in t.instances
    ensures t.instances[id].id == id && Tells(Log(t.events, id), t.instances[id]) && t.instances[id].name in t.names
  {}

  lemma KindOfChange(before: Instance, call: Call)
    ensures Kind(call) != EventKind.Created
    ensures Change(before, call).Some? && Change(before, call).value.state != before.state ==>
              Kind(call) == StateChanged
  {}

  /** Every committed, failed or half-failed operation keeps log and table in agreement. */
  lemma StepKeepsLog(t: Tables, op: Operation, fate: Fate, now: Time)
    requires LogAgrees(t)
    ensures LogAgrees(After(t, op, fate, now))
  {
    match op
    case Create(record) => CreateKeepsLog(t, record, now);
    case Mutate(id, call) => MutateKeepsLog(t, id, call, now);
  }

  datatype Entry = Entry(op: Operation, fate: Fate, now: Time)

  function RunFrom(t: Tables, history: seq<Entry>): Tables {
    if history == [] then t
    else
      var last := history[|history| - 1];
      After(RunFrom(t, history[..|history| - 1]), last.op, last.fate, last.now)
  }

  /** Over every run of the store, whatever calls are made and whatever becomes of them. */
  lemma {:induction false} RunKeepsLog(history: seq<Entry>)
    ensures LogAgrees(RunFrom(EMPTY, history))
  {
    if history != [] {
      RunKeepsLog(history[..|history| - 1]);
      var last := history[|history| - 1];
      StepKeepsLog(RunFrom(EMPTY, history[..|history| - 1]), last.op, last.fate, last.now);
    }
  }

  /** Read from the log alone: at most four events change the state, the record's state is
      the last state in the log, Finished is never left and Running never becomes Ready. */
  lemma LogTellsLifecycle(history: seq<Entry>, id: string)
    requires id in RunFrom(EMPTY, history).instances
    ensures var t := RunFrom(EMPTY, history);
            var states := ToStates(Log(t.events, id));
            && |states| > 0 && Chain(states) && Changes(states) <= 4
            && states[|states| - 1] == t.instances[id].state
            && (forall i, j :: 0 <= i <= j < |states| ==>
                  && (states[i] == Finished ==> states[j] == Finished)
                  && (states[i] == Running ==> states[j] != Ready))
  {
    RunKeepsLog(history);
    var t := RunFrom(EMPTY, history);
    var log := Log(t.events, id);
    var states := ToStates(log);
    assert Tells(log, t.instances[id]);
    assert Chain(states) by {
      forall i | 0 < i < |states| ensures CanTransition(states[i - 1], states[i]) {
        assert log[i].from == Some(log[i - 1].to);
      }
    }
    ChainClimbs(states);
    forall i, j | 0 <= i <= j < |states|
      ensures (states[i] == Finished ==> states[j] == Finished) && (states[i] == Running ==> states[j] != Ready)
    {
      ChainNeverReturns(states, i, j);
    }
  }

  // ---- the time of the last change of state ----

  ghost predicate HasState(t: Tables, id: string, state: State) {
    id in t.instances && t.instances[id].state == state
  }

  /** Entry `i` of the history has put the record into the state it is in, and at no later
      moment was it in another one. */
  ghost predicate Entered(history: seq<Entry>, id: string, state: State, i: nat) {
    && i < |history|
    && !HasState(RunFrom(EMPTY, history[..i]), id, state)
    && forall j :: i < j <= |history| ==> HasState(RunFrom(EMPTY, history[..j]), id, state)
  }

  lemma StepStamps(t: Tables, op: Operation, fate: Fate, now: Time, id: string)
    requires id in After(t, op, fate, now).instances
    requires forall j :: j in t.instances ==> t.instances[j].id == j
    ensures var after := After(t, op, fate, now).instances[id];
            if HasState(t, id, after.state) then after.stateChangedAt == t.instances[id].stateChangedAt
            else after.stateChangedAt == now
  {
    if op.Mutate? && op.id in t.instances {
      ChangeFollowsLifecycle(t.instances[op.id], op.call);
    }
  }

  lemma {:induction false} LastStep(history: seq<Entry>, id: string)
    requires id in RunFrom(EMPTY, history).instances
    ensures |history| > 0
    ensures var before, x := RunFrom(EMPTY, history[..|history| - 1]), RunFrom(EMPTY, history).instances[id];
            if HasState(before, id, x.state) then x.stateChangedAt == before.instances[id].stateChangedAt
            else x.stateChangedAt == history[|history| - 1].now
  {
    var n := |history| - 1;
    RunKeepsLog(history[..n]);
    StepStamps(RunFrom(EMPTY, history[..n]), history[n].op, history[n].fate, history[n].now, id);
  }

  /** The timestamp of a record is the time of the operation that last changed its state. */
  lemma {:induction false} TimestampOfState(history: seq<Entry>, id: string) returns (i: nat)
    requires id in RunFrom(EMPTY, history).instances
    ensures var x := RunFrom(EMPTY, history).instances[id];
            Entered(history, id, x.state, i) && x.stateChangedAt == history[i].now
  {
    LastStep(history, id);
    hide RunFrom;
    var n := |history| - 1;
    var before, x := RunFrom(EMPTY, history[..n]), RunFrom(EMPTY, history).instances[id];
    assert history[..n + 1] == history;
    if HasState(before, id, x.state) {
      i := TimestampOfState(history[..n], id);
      EnteredEarlier(history, id, x.state, i);
    } else {
      i := n;
    }
  }

  lemma EnteredEarlier(history: seq<Entry>, id: string, state: State, i: nat)
    requires |history| > 0 && Entered(history[..|history| - 1], id, state, i)
    requires HasState(RunFrom(EMPTY, history), id, state)
    ensures Entered(history, id, state, i)
  {
    var init := history[..|history| - 1];
    assert init[..i] == history[..i];
    forall j | i < j <= |history|
      ensures HasState(RunFrom(EMPTY, history[..j]), id, state)
    {
      if j < |history| {
        assert init[..j] == history[..j];
      } else {
        assert history[..j] == history;
      }
    }
  }
}
