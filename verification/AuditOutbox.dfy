/** The audit outbox and the job that relays it (clients/audit-outbox/audit-outbox-relay.job.ts,
    clients/audit.client.ts). */
module AuditOutbox {
  import opened Outcomes
  import opened Faults
  import opened ResilientClient

  const MAX_RELAY_ATTEMPTS: nat := 5

  datatype Status = PENDING | SENT | FAILED

  datatype Row = Row(eventType: string, payload: string, status: Status, attempts: nat)

  /** What awaits one relay: no audit service configured, an open circuit breaker, or a call whose posts are
      answered in turn (missing answers are failures) unless the breaker's timeout comes first. */
  datatype Relay = Unconfigured | BreakerOpen | Fired(answers: seq<bool>, timesOut: bool)

  /** One row's part of a tick: the relay, then the save of the SENT row, then the save of a failure. */
  datatype Step = Step(relay: Relay, saveSent: Mode, saveFailure: Mode)

  type Tick = map<nat, Step>

  /** Rows a tick does not mention are not answered. */
  function StepAt(tick: Tick, i: nat): Step {
    if i in tick then tick[i] else Step(BreakerOpen, Works, Works)
  }

  /** What one relay posted for a row and what came of it: `delivered` to the audit service, `reported` to
      the job. */
  datatype Note = Note(row: nat, eventType: string, payload: string, delivered: bool, reported: bool, posts: nat)

  datatype World = World(rows: seq<Row>, log: seq<Note>)

  type Exit = Control<()>

  datatype Progress = Progress(w: World, exit: Exit)

  function Answer(relay: Relay): (succeeds: nat -> bool)
    ensures forall k: nat :: succeeds(k) == (relay.Fired? && k < |relay.answers| && relay.answers[k])
  {
    (k: nat) => relay.Fired? && k < |relay.answers| && relay.answers[k]
  }

  function Posts(relay: Relay): nat {
    if relay.Fired? then Calls(Answer(relay), DEFAULT_RETRIES + 1) else 0
  }

  predicate Delivers(relay: Relay) {
    Posts(relay) > 0 && Answer(relay)(Posts(relay) - 1)
  }

  predicate Reports(relay: Relay) {
    Delivers(relay) && !relay.timesOut
  }

  function NoteOf(i: nat, row: Row, relay: Relay): Note {
    Note(i, row.eventType, row.payload, Delivers(relay), Reports(relay), Posts(relay))
  }

  function AfterFailure(row: Row): Row {
    row.(attempts := row.attempts + 1, status := if row.attempts + 1 >= MAX_RELAY_ATTEMPTS then FAILED else PENDING)
  }

  /** The row after its part of a tick. A failing save of the SENT row counts as a failed relay, and that
      failure is saved over the row as it was read. */
  function RowAfter(row: Row, step: Step): Row {
    var sent := if Reports(step.relay) && TakesEffect(step.saveSent) then row.(status := SENT) else row;
    if Reports(step.relay) && (step.saveSent.Works? || step.saveSent.Crashes?) then sent
    else if TakesEffect(step.saveFailure) then AfterFailure(row) else sent
  }

  function StepExit(step: Step): Exit {
    if Reports(step.relay) && step.saveSent.Works? then Go
    else if Reports(step.relay) && step.saveSent.Crashes? then Crashed
    else Leaves(step.saveFailure, ())
  }

  function RelayRow(w: World, i: nat, read: Row, step: Step): World
    requires i < |w.rows|
  {
    World(w.rows[i := RowAfter(read, step)], w.log + [NoteOf(i, read, step.relay)])
  }

  /** The ids of the pending rows among the first n, in table order. */
  function PendingIds(rows: seq<Row>, n: nat): (ids: seq<nat>)
    requires n <= |rows|
    ensures forall k | 0 <= k < |ids| :: ids[k] < n && rows[ids[k]].status.PENDING?
  {
    if n == 0 then [] else PendingIds(rows, n - 1) + if rows[n - 1].status.PENDING? then [n - 1] else []
  }

  lemma {:induction false} PendingIdsIncrease(rows: seq<Row>, n: nat, j: nat, k: nat)
    requires n <= |rows| && j < k < |PendingIds(rows, n)|
    ensures PendingIds(rows, n)[j] < PendingIds(rows, n)[k]
  {
    if k < |PendingIds(rows, n - 1)| {
      PendingIdsIncrease(rows, n - 1, j, k);
    }
  }

  lemma {:induction false} PendingIdsHaveEach(rows: seq<Row>, n: nat, i: nat)
    requires i < n <= |rows| && rows[i].status.PENDING?
    ensures exists k | 0 <= k < |PendingIds(rows, n)| :: PendingIds(rows, n)[k] == i
  {
    if i < n - 1 {
      PendingIdsHaveEach(rows, n - 1, i);
      var k :| 0 <= k < |PendingIds(rows, n - 1)| && PendingIds(rows, n - 1)[k] == i;
      assert PendingIds(rows, n)[k] == i;
    } else {
      assert PendingIds(rows, n)[|PendingIds(rows, n - 1)|] == i;
    }
  }

  /** The tick after its first k pending rows; an error that leaves the loop ends it. */
  function RelayedTo(w: World, tick: Tick, k: nat): Progress
    requires k <= |PendingIds(w.rows, |w.rows|)|
    ensures |RelayedTo(w, tick, k).w.rows| == |w.rows|
  {
    if k == 0 then Progress(w, Go)
    else
      var before := RelayedTo(w, tick, k - 1);
      if !before.exit.Go? then before
      else
        var i := PendingIds(w.rows, |w.rows|)[k - 1];
        Progress(RelayRow(before.w, i, w.rows[i], StepAt(tick, i)), StepExit(StepAt(tick, i)))
  }

  function Handled(w: World, tick: Tick): Progress {
    RelayedTo(w, tick, |PendingIds(w.rows, |w.rows|)|)
  }

  lemma {:induction false} StaysStopped(w: World, tick: Tick, k: nat, n: nat)
    requires k <= n <= |PendingIds(w.rows, |w.rows|)| && !RelayedTo(w, tick, k).exit.Go?
    ensures RelayedTo(w, tick, n) == RelayedTo(w, tick, k)
  {
    if k < n {
      StaysStopped(w, tick, k, n - 1);
    }
  }

  lemma RelayedNext(w: World, tick: Tick, k: nat, i: nat)
    requires k < |PendingIds(w.rows, |w.rows|)| && i == PendingIds(w.rows, |w.rows|)[k]
    requires RelayedTo(w, tick, k).exit.Go?
    ensures RelayedTo(w, tick, k + 1) ==
      Progress(RelayRow(RelayedTo(w, tick, k).w, i, w.rows[i], StepAt(tick, i)), StepExit(StepAt(tick, i)))
  {
  }

  lemma {:induction false} NotYetRelayed(w: World, tick: Tick, k: nat, j: nat)
    requires k <= j < |PendingIds(w.rows, |w.rows|)|
    ensures var i := PendingIds(w.rows, |w.rows|)[j]; RelayedTo(w, tick, k).w.rows[i] == w.rows[i]
  {
    if k > 0 {
      NotYetRelayed(w, tick, k - 1, j);
      PendingIdsIncrease(w.rows, |w.rows|, k - 1, j);
    }
  }

  class AuditClient {
    var log: seq<Note>

    constructor ()
      ensures log == []
    {
      log := [];
    }

    method Relay(i: nat, eventType: string, payload: string, relay: Relay) returns (result: Result<(), ()>)
      modifies this
      ensures log == old(log) + [Note(i, eventType, payload, Delivers(relay), Reports(relay), Posts(relay))]
      ensures result.Ok? <==> Reports(relay)
    {
      if !relay.Fired? {
        log := log + [Note(i, eventType, payload, false, false, 0)];
        return Err(());
      }
      var answers := (k: nat) => if Answer(relay)(k) then Ok(()) else Err(());
      var outcome, calls, _ := WithRetries(answers, DEFAULT_RETRIES);
      forall k: nat | k < calls - 1 ensures !Answer(relay)(k) {
        assert answers(k).Err?;
      }
      CallsAre(relay, calls);
      log := log + [Note(i, eventType, payload, outcome.Ok?, outcome.Ok? && !relay.timesOut, calls)];
      return if outcome.Ok? && !relay.timesOut then Ok(()) else Err(());
    }
  }

  lemma CallsAre(relay: Relay, calls: nat)
    requires relay.Fired? && 1 <= calls <= DEFAULT_RETRIES + 1
    requires forall k: nat | k < calls - 1 :: !Answer(relay)(k)
    requires Answer(relay)(calls - 1) || calls == DEFAULT_RETRIES + 1
    ensures Posts(relay) == calls
  {
  }

  class AuditOutboxRelayJob {
    var rows: seq<Row>
    const auditClient: AuditClient

    constructor ()
      ensures State() == World([], [])
    {
      rows := [];
      auditClient := new AuditClient();
    }

    function State(): World
      reads this, auditClient
    {
      World(rows, auditClient.log)
    }

    method Save(i: nat, row: Row, mode: Mode) returns (exit: Exit)
      requires i < |rows|
      modifies `rows
      ensures rows == (if TakesEffect(mode) then old(rows)[i := row] else old(rows))
      ensures exit == Leaves(mode, ())
    {
      if TakesEffect(mode) {
        rows := rows[i := row];
      }
      return Leaves(mode, ());
    }

    /** The body of the loop, for one row as it was read. */
    method RelayOne(i: nat, row: Row, step: Step) returns (exit: Exit)
      requires i < |rows| && rows[i] == row
      modifies `rows, auditClient
      ensures rows == old(rows)[i := RowAfter(row, step)]
      ensures auditClient.log == old(auditClient.log) + [NoteOf(i, row, step.relay)]
      ensures exit == StepExit(step)
    {
      var relayed := auditClient.Relay(i, row.eventType, row.payload, step.relay);
      if relayed.Ok? {
        exit := Save(i, row.(status := SENT), step.saveSent);
        if !exit.Threw? {
          return;
        }
      }
      var attempts := row.attempts + 1;
      var status := if attempts >= MAX_RELAY_ATTEMPTS then FAILED else PENDING;
      exit := Save(i, row.(attempts := attempts, status := status), step.saveFailure);
    }

    method Handle(tick: Tick) returns (exit: Exit)
      modifies this, auditClient
      ensures Progress(State(), exit) == Handled(old(State()), tick)
    {
      ghost var start := State();
      var read, pending := rows, PendingIds(rows, |rows|);
      for k := 0 to |pending|
        invariant Progress(State(), Go) == RelayedTo(start, tick, k)
      {
        var i := pending[k];
        NotYetRelayed(start, tick, k, k);
        exit := RelayOne(i, read[i], StepAt(tick, i));
        RelayedNext(start, tick, k, i);
        if exit != Go {
          StaysStopped(start, tick, k + 1, |pending|);
          return;
        }
      }
      return Go;
    }
  }
}
