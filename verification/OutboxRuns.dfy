/** The audit outbox over serial runs of ticks and new rows. */
module OutboxRuns {
  import opened AuditOutbox

  datatype Event = Added(eventType: string, payload: string) | Ticked(tick: Tick)

  function Next(w: World, e: Event): World {
    match e
    case Added(eventType, payload) => w.(rows := w.rows + [Row(eventType, payload, PENDING, 0)])
    case Ticked(tick) => Handled(w, tick).w
  }

  function Run(w: World, events: seq<Event>): World {
    if events == [] then w else Next(Run(w, events[..|events| - 1]), events[|events| - 1])
  }

  // ---- the relays of one row

  function Unit(b: bool): nat {
    if b then 1 else 0
  }

  /** How often a row was delivered, relayed with and without reported success, and posted. */
  datatype Counts = Counts(deliveries: nat, successes: nat, failures: nat, posts: nat)

  function Noted(counts: Counts, note: Note): Counts {
    Counts(counts.deliveries + Unit(note.delivered),
           counts.successes + Unit(note.reported),
           counts.failures + Unit(!note.reported),
           counts.posts + note.posts)
  }

  function CountsOf(log: seq<Note>, i: nat): Counts {
    if log == [] then Counts(0, 0, 0, 0)
    else
      var last := log[|log| - 1];
      var before := CountsOf(log[..|log| - 1], i);
      if last.row == i then Noted(before, last) else before
  }

  datatype Tally = Tally(row: Row, counts: Counts)

  function TallyOf(w: World, i: nat): Tally
    requires i < |w.rows|
  {
    Tally(w.rows[i], CountsOf(w.log, i))
  }

  function RelayedTally(tally: Tally, i: nat, step: Step): Tally {
    Tally(RowAfter(tally.row, step), Noted(tally.counts, NoteOf(i, tally.row, step.relay)))
  }

  lemma CountsAfter(log: seq<Note>, note: Note, i: nat)
    ensures CountsOf(log + [note], i) == if note.row == i then Noted(CountsOf(log, i), note) else CountsOf(log, i)
  {
    assert (log + [note])[..|log|] == log;
  }

  /** One turn of the loop, which relays one row. */
  lemma TurnTallies(w: World, tick: Tick, k: nat, i: nat)
    requires i < |w.rows| && k < |PendingIds(w.rows, |w.rows|)| && RelayedTo(w, tick, k).exit.Go?
    ensures var id := PendingIds(w.rows, |w.rows|)[k];
      TallyOf(RelayedTo(w, tick, k + 1).w, i) ==
        if i == id then Tally(RowAfter(w.rows[i], StepAt(tick, i)),
                              Noted(CountsOf(RelayedTo(w, tick, k).w.log, i),
                                    NoteOf(i, w.rows[i], StepAt(tick, i).relay)))
        else TallyOf(RelayedTo(w, tick, k).w, i)
  {
    var before, id := RelayedTo(w, tick, k).w, PendingIds(w.rows, |w.rows|)[k];
    RelayedNext(w, tick, k, id);
    CountsAfter(before.log, NoteOf(id, w.rows[id], StepAt(tick, id).relay), i);
  }

  /** A row whose turn has not come. */
  lemma {:induction false} UntouchedTally(w: World, tick: Tick, k: nat, i: nat)
    requires i < |w.rows| && k <= |PendingIds(w.rows, |w.rows|)|
    requires forall j | 0 <= j < k :: PendingIds(w.rows, |w.rows|)[j] != i
    ensures TallyOf(RelayedTo(w, tick, k).w, i) == TallyOf(w, i)
  {
    if k > 0 {
      UntouchedTally(w, tick, k - 1, i);
      if RelayedTo(w, tick, k - 1).exit.Go? {
        TurnTallies(w, tick, k - 1, i);
      } else {
        StaysStopped(w, tick, k - 1, k);
      }
    }
  }

  /** The tick gets to the row: it is pending, and no error left the loop at a pending row before it. */
  ghost predicate Reached(w: World, tick: Tick, i: nat) {
    && i < |w.rows| && w.rows[i].status.PENDING?
    && forall j: nat | j < i && w.rows[j].status.PENDING? :: StepExit(StepAt(tick, j)).Go?
  }

  lemma {:induction false} LoopGoesOnIff(w: World, tick: Tick, k: nat)
    requires k <= |PendingIds(w.rows, |w.rows|)|
    ensures RelayedTo(w, tick, k).exit.Go? <==>
      forall j | 0 <= j < k :: StepExit(StepAt(tick, PendingIds(w.rows, |w.rows|)[j])).Go?
  {
    if k > 0 {
      LoopGoesOnIff(w, tick, k - 1);
    }
  }

  lemma ReachedIff(w: World, tick: Tick, at: nat)
    requires at < |PendingIds(w.rows, |w.rows|)|
    ensures Reached(w, tick, PendingIds(w.rows, |w.rows|)[at]) <==> RelayedTo(w, tick, at).exit.Go?
  {
    var ids := PendingIds(w.rows, |w.rows|);
    LoopGoesOnIff(w, tick, at);
    forall j | 0 <= j < at ensures ids[j] < ids[at] {
      PendingIdsIncrease(w.rows, |w.rows|, j, at);
    }
    forall i: nat | i < ids[at] && w.rows[i].status.PENDING?
      ensures exists j | 0 <= j < at :: ids[j] == i
    {
      PendingIdsHaveEach(w.rows, |w.rows|, i);
      var j :| 0 <= j < |ids| && ids[j] == i;
      if j > at {
        PendingIdsIncrease(w.rows, |w.rows|, at, j);
      }
    }
  }

  lemma {:induction false} LaterTurns(w: World, tick: Tick, at: nat, k: nat)
    requires at < k <= |PendingIds(w.rows, |w.rows|)|
    ensures var i := PendingIds(w.rows, |w.rows|)[at];
      TallyOf(RelayedTo(w, tick, k).w, i) == TallyOf(RelayedTo(w, tick, at + 1).w, i)
  {
    if k > at + 1 {
      LaterTurns(w, tick, at, k - 1);
      if RelayedTo(w, tick, k - 1).exit.Go? {
        PendingIdsIncrease(w.rows, |w.rows|, at, k - 1);
        TurnTallies(w, tick, k - 1, PendingIds(w.rows, |w.rows|)[at]);
      } else {
        StaysStopped(w, tick, k - 1, k);
      }
    }
  }

  /** A tick relays exactly the rows it reaches. */
  lemma TickRelaysReached(w: World, tick: Tick, i: nat)
    requires i < |w.rows|
    ensures TallyOf(Handled(w, tick).w, i) ==
      if Reached(w, tick, i) then RelayedTally(TallyOf(w, i), i, StepAt(tick, i)) else TallyOf(w, i)
  {
    var ids := PendingIds(w.rows, |w.rows|);
    if w.rows[i].status.PENDING? {
      PendingIdsHaveEach(w.rows, |w.rows|, i);
      var at: nat :| at < |ids| && ids[at] == i;
      ReachedIff(w, tick, at);
      NotBefore(w, tick, at);
      LaterTurns(w, tick, at, |ids|);
      if RelayedTo(w, tick, at).exit.Go? {
        TurnTallies(w, tick, at, i);
      } else {
        StaysStopped(w, tick, at, at + 1);
      }
    } else {
      UntouchedTally(w, tick, |ids|, i);
    }
  }

  lemma NotBefore(w: World, tick: Tick, at: nat)
    requires at < |PendingIds(w.rows, |w.rows|)|
    ensures var i := PendingIds(w.rows, |w.rows|)[at];
      TallyOf(RelayedTo(w, tick, at).w, i) == TallyOf(w, i)
  {
    forall j | 0 <= j < at ensures PendingIds(w.rows, |w.rows|)[j] != PendingIds(w.rows, |w.rows|)[at] {
      PendingIdsIncrease(w.rows, |w.rows|, j, at);
    }
    UntouchedTally(w, tick, at, PendingIds(w.rows, |w.rows|)[at]);
  }

  /** No error leaves the loop. */
  ghost predicate ReachesAll(tick: Tick) {
    forall i: nat :: StepExit(StepAt(tick, i)).Go?
  }

  /** What an event does to the tally of a row that is there. */
  ghost predicate StepsTo(before: Tally, e: Event, i: nat, after: Tally) {
    || (after == before && (e.Ticked? && ReachesAll(e.tick) ==> !before.row.status.PENDING?))
    || (e.Ticked? && before.row.status.PENDING? && after == RelayedTally(before, i, StepAt(e.tick, i)))
  }

  lemma EventTallies(w: World, e: Event, i: nat)
    requires i < |w.rows|
    ensures i < |Next(w, e).rows| && StepsTo(TallyOf(w, i), e, i, TallyOf(Next(w, e), i))
  {
    if e.Ticked? {
      TickRelaysReached(w, e.tick, i);
    }
  }

  // ---- any run

  /** Attempts count failed relays or failed saves; nothing is marked SENT undelivered, nothing is given up
      before the fifth attempt; one relay is at most three posts. */
  predicate Sound(t: Tally) {
    && t.row.attempts <= 5
    && (t.row.status.FAILED? <==> t.row.attempts == 5)
    && (t.row.status.SENT? ==> t.counts.successes >= 1)
    && t.counts.successes <= t.counts.deliveries <= t.counts.successes + t.counts.failures
    && t.row.attempts <= t.counts.failures + t.counts.successes
    && t.counts.posts <= 3 * (t.counts.successes + t.counts.failures)
  }

  ghost predicate LogNamesRows(w: World) {
    forall k | 0 <= k < |w.log| :: w.log[k].row < |w.rows|
  }

  lemma {:induction false} NothingLogged(log: seq<Note>, i: nat)
    requires forall k | 0 <= k < |log| :: log[k].row != i
    ensures CountsOf(log, i) == Counts(0, 0, 0, 0)
  {
    if log != [] {
      NothingLogged(log[..|log| - 1], i);
    }
  }

  lemma {:induction false} TickNamesRows(w: World, tick: Tick, k: nat)
    requires LogNamesRows(w) && k <= |PendingIds(w.rows, |w.rows|)|
    ensures LogNamesRows(RelayedTo(w, tick, k).w)
  {
    if k > 0 {
      TickNamesRows(w, tick, k - 1);
    }
  }

  lemma {:induction false} LogAlwaysNamesRows(events: seq<Event>)
    ensures LogNamesRows(Run(World([], []), events))
  {
    if events != [] {
      var before, last := Run(World([], []), events[..|events| - 1]), events[|events| - 1];
      LogAlwaysNamesRows(events[..|events| - 1]);
      if last.Ticked? {
        TickNamesRows(before, last.tick, |PendingIds(before.rows, |before.rows|)|);
      }
    }
  }

  lemma AddedTally(w: World, e: Event)
    requires LogNamesRows(w) && e.Added?
    ensures TallyOf(Next(w, e), |w.rows|) == Tally(Row(e.eventType, e.payload, PENDING, 0), Counts(0, 0, 0, 0))
  {
    NothingLogged(w.log, |w.rows|);
  }

  lemma StepKeepsSound(before: Tally, e: Event, i: nat, after: Tally)
    requires Sound(before) && StepsTo(before, e, i, after)
    ensures Sound(after)
  {
  }

  /** In every serial run, whatever fails or crashes, every row is sound. */
  lemma {:induction false} RowsAreSound(events: seq<Event>, i: nat)
    requires i < |Run(World([], []), events).rows|
    ensures Sound(TallyOf(Run(World([], []), events), i))
  {
    if events != [] {
      var front, last := events[..|events| - 1], events[|events| - 1];
      var before := Run(World([], []), front);
      if i < |before.rows| {
        RowsAreSound(front, i);
        EventTallies(before, last, i);
        StepKeepsSound(TallyOf(before, i), last, i, TallyOf(Next(before, last), i));
      } else {
        LogAlwaysNamesRows(front);
        if last.Added? {
          AddedTally(before, last);
        }
      }
    }
  }

  /** Rows that are SENT or FAILED are never relayed or changed again, in any run. */
  lemma {:induction false} TerminalRowsStay(w: World, events: seq<Event>, i: nat)
    requires i < |w.rows| && !w.rows[i].status.PENDING?
    ensures i < |Run(w, events).rows| && TallyOf(Run(w, events), i) == TallyOf(w, i)
  {
    if events != [] {
      TerminalRowsStay(w, events[..|events| - 1], i);
      EventTallies(Run(w, events[..|events| - 1]), events[|events| - 1], i);
    }
  }

  // ---- runs with reliable saves

  /** The saves of the tick all work. */
  predicate Reliable(tick: Tick) {
    forall i | i in tick :: tick[i].saveSent.Works? && tick[i].saveFailure.Works?
  }

  predicate AllReliable(events: seq<Event>) {
    forall k | 0 <= k < |events| :: events[k].Ticked? ==> Reliable(events[k].tick)
  }

  /** Attempts count the failed relays, at most five; SENT means exactly one successful relay, FAILED exactly
      five failures and no success; a row causes at most fifteen posts. */
  predicate Exact(t: Tally) {
    && t.row.attempts == t.counts.failures <= 5
    && t.counts.successes == Unit(t.row.status.SENT?)
    && (t.row.status.FAILED? <==> t.counts.failures == 5)
    && t.counts.posts <= 15
  }

  lemma StepKeepsExact(before: Tally, e: Event, i: nat, after: Tally)
    requires Sound(before) && Exact(before) && StepsTo(before, e, i, after)
    requires e.Ticked? ==> Reliable(e.tick)
    ensures Exact(after)
  {
    StepKeepsSound(before, e, i, after);
  }

  lemma {:induction false} ReliableRunsAreExact(events: seq<Event>, i: nat)
    requires AllReliable(events) && i < |Run(World([], []), events).rows|
    ensures Exact(TallyOf(Run(World([], []), events), i))
  {
    if events != [] {
      var front, last := events[..|events| - 1], events[|events| - 1];
      var before := Run(World([], []), front);
      if i < |before.rows| {
        ReliableRunsAreExact(front, i);
        RowsAreSound(front, i);
        EventTallies(before, last, i);
        StepKeepsExact(TallyOf(before, i), last, i, TallyOf(Next(before, last), i));
      } else {
        LogAlwaysNamesRows(front);
        if last.Added? {
          AddedTally(before, last);
        }
      }
    }
  }

  function Ticks(events: seq<Event>): nat {
    if events == [] then 0 else Ticks(events[..|events| - 1]) + Unit(events[|events| - 1].Ticked?)
  }

  /** No error leaves the loop of a tick: whatever is not saved as SENT is saved as a failure. */
  ghost predicate AllTicksEnd(events: seq<Event>) {
    forall k | 0 <= k < |events| :: events[k].Ticked? ==> ReachesAll(events[k].tick)
  }

  /** A row still pending after some ticks has failed in every one of them. */
  lemma {:induction false} PendingFailsEveryTick(w: World, events: seq<Event>, i: nat)
    requires i < |w.rows| && AllTicksEnd(events)
    ensures i < |Run(w, events).rows|
    ensures Run(w, events).rows[i].status.PENDING? ==>
              Run(w, events).rows[i].attempts >= w.rows[i].attempts + Ticks(events)
  {
    if events != [] {
      var front, last := events[..|events| - 1], events[|events| - 1];
      PendingFailsEveryTick(w, front, i);
      EventTallies(Run(w, front), last, i);
    }
  }

  /** Whatever happened before and whatever the audit service answers, every row leaves PENDING within five
      ticks whose loops run to their end. */
  lemma FiveTicksSettle(events: seq<Event>, more: seq<Event>, i: nat)
    requires AllTicksEnd(more) && Ticks(more) >= 5
    requires i < |Run(World([], []), events).rows|
    ensures var v := Run(Run(World([], []), events), more);
      i < |v.rows| && !v.rows[i].status.PENDING?
  {
    var w := Run(World([], []), events);
    PendingFailsEveryTick(w, more, i);
    RunOfBoth(World([], []), events, more);
    RowsAreSound(events + more, i);
  }

  lemma {:induction false} RunOfBoth(w: World, a: seq<Event>, b: seq<Event>)
    ensures Run(w, a + b) == Run(Run(w, a), b)
  {
    if b == [] {
      assert a + b == a;
    } else {
      assert (a + b)[..|a + b| - 1] == a + b[..|b| - 1];
      RunOfBoth(w, a, b[..|b| - 1]);
    }
  }

  /** When in addition no breaker times out under a delivered row, a row is delivered exactly once if it is
      SENT and never otherwise. */
  lemma {:induction false} AcknowledgedRowsAreDeliveredOnce(events: seq<Event>, i: nat)
    requires AllReliable(events) && i < |Run(World([], []), events).rows|
    requires forall k | 0 <= k < |events| && events[k].Ticked? ::
      forall j | j in events[k].tick :: Delivers(events[k].tick[j].relay) ==> Reports(events[k].tick[j].relay)
    ensures var t := TallyOf(Run(World([], []), events), i); t.counts.deliveries == Unit(t.row.status.SENT?)
  {
    DeliveredIsReported(events, i);
    ReliableRunsAreExact(events, i);
  }

  lemma {:induction false} DeliveredIsReported(events: seq<Event>, i: nat)
    requires i < |Run(World([], []), events).rows|
    requires forall k | 0 <= k < |events| && events[k].Ticked? ::
      forall j | j in events[k].tick :: Delivers(events[k].tick[j].relay) ==> Reports(events[k].tick[j].relay)
    ensures var t := TallyOf(Run(World([], []), events), i); t.counts.deliveries == t.counts.successes
  {
    if events != [] {
      var front, last := events[..|events| - 1], events[|events| - 1];
      var before := Run(World([], []), front);
      if i < |before.rows| {
        DeliveredIsReported(front, i);
        EventTallies(before, last, i);
      } else {
        LogAlwaysNamesRows(front);
        if last.Added? {
          AddedTally(before, last);
        }
      }
    }
  }

  // ---- what is posted

  /** A relay that is let through posts until the first answer that is a success, three times at most, and has
      delivered exactly if there was one; any other relay posts nothing. */
  lemma PostsUntilAnswered(relay: Relay)
    ensures !relay.Fired? ==> Posts(relay) == 0 && !Delivers(relay)
    ensures relay.Fired? ==> forall k: nat | k < 3 && k < |relay.answers| && relay.answers[k] ::
      (forall j | 0 <= j < k :: !relay.answers[j]) ==> Posts(relay) == k + 1 && Delivers(relay)
    ensures relay.Fired? && (forall k | 0 <= k < |relay.answers| && k < 3 :: !relay.answers[k]) ==>
      Posts(relay) == 3 && !Delivers(relay)
  {
    if relay.Fired? {
      assert forall k: nat :: Answer(relay)(k) <==> k < |relay.answers| && relay.answers[k];
    }
  }

  ghost predicate SameEvents(a: seq<Row>, b: seq<Row>) {
    |a| <= |b| && forall i | 0 <= i < |a| :: b[i].eventType == a[i].eventType && b[i].payload == a[i].payload
  }

  /** Each relay posted the event of its row. */
  ghost predicate PostsItsRow(w: World) {
    forall k | 0 <= k < |w.log| ::
      && w.log[k].row < |w.rows|
      && w.log[k].eventType == w.rows[w.log[k].row].eventType && w.log[k].payload == w.rows[w.log[k].row].payload
  }

  lemma RelayPostsItsRow(w: World, i: nat, read: Row, step: Step)
    requires PostsItsRow(w) && i < |w.rows|
    requires read.eventType == w.rows[i].eventType && read.payload == w.rows[i].payload
    ensures SameEvents(w.rows, RelayRow(w, i, read, step).rows) && PostsItsRow(RelayRow(w, i, read, step))
  {
  }

  lemma {:induction false} TickPostsItsRows(w: World, tick: Tick, k: nat)
    requires PostsItsRow(w) && k <= |PendingIds(w.rows, |w.rows|)|
    ensures var v := RelayedTo(w, tick, k).w; SameEvents(w.rows, v.rows) && PostsItsRow(v)
  {
    if k > 0 {
      var before, i := RelayedTo(w, tick, k - 1), PendingIds(w.rows, |w.rows|)[k - 1];
      TickPostsItsRows(w, tick, k - 1);
      if before.exit.Go? {
        RelayPostsItsRow(before.w, i, w.rows[i], StepAt(tick, i));
        RelayedNext(w, tick, k - 1, i);
      } else {
        StaysStopped(w, tick, k - 1, k);
      }
    }
  }

  lemma EventPostsItsRows(w: World, e: Event)
    requires PostsItsRow(w)
    ensures SameEvents(w.rows, Next(w, e).rows) && PostsItsRow(Next(w, e))
  {
    if e.Ticked? {
      TickPostsItsRows(w, e.tick, |PendingIds(w.rows, |w.rows|)|);
    }
  }

  /** The row was made by this event, when the table had i rows. */
  ghost predicate AddedAs(w: World, e: Event, i: nat, row: Row) {
    |w.rows| == i && e.Added? && row.eventType == e.eventType && row.payload == e.payload
  }

  /** In every serial run, whatever fails or crashes, each row keeps the event type and the payload it was
      added with, and every relay of it posts just those. */
  lemma {:induction false} WhatWasAddedIsPosted(events: seq<Event>, i: nat)
    ensures PostsItsRow(Run(World([], []), events))
    ensures i < |Run(World([], []), events).rows| ==> exists k: nat | k < |events| ::
      AddedAs(Run(World([], []), events[..k]), events[k], i, Run(World([], []), events).rows[i])
  {
    if events != [] {
      var last := |events| - 1;
      var front := events[..last];
      var before := Run(World([], []), front);
      WhatWasAddedIsPosted(front, i);
      EventPostsItsRows(before, events[last]);
      if i < |before.rows| {
        var k: nat :| k < |front| && AddedAs(Run(World([], []), front[..k]), front[k], i, before.rows[i]);
        assert front[..k] == events[..k];
        assert AddedAs(Run(World([], []), events[..k]), events[k], i, Run(World([], []), events).rows[i]);
      } else if i < |Run(World([], []), events).rows| {
        assert front == events[..last];
        assert AddedAs(before, events[last], i, Run(World([], []), events).rows[i]);
      }
    }
  }
}
