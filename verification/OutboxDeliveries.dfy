/** How often the audit outbox delivers a row, over any serial run: exactly which steps lead to a second
    delivery. */
module OutboxDeliveries {
  import opened Faults
  import opened ResilientClient
  import opened AuditOutbox
  import opened OutboxRuns

  // ---- deliveries, one by one

  /** The event delivers the row. */
  ghost predicate DeliversRow(w: World, e: Event, i: nat) {
    e.Ticked? && Reached(w, e.tick, i) && Delivers(StepAt(e.tick, i).relay)
  }

  const EMPTY := World([], [])

  /** The positions in the run of the events that deliver the row. */
  ghost function DeliveryTimes(events: seq<Event>, i: nat): seq<nat> {
    if events == [] then []
    else
      var n := |events| - 1;
      DeliveryTimes(events[..n], i) + if DeliversRow(Run(EMPTY, events[..n]), events[n], i) then [n] else []
  }

  ghost predicate DeliversAt(events: seq<Event>, k: nat, i: nat) {
    k < |events| && DeliversRow(Run(EMPTY, events[..k]), events[k], i)
  }

  lemma StepDeliveries(w: World, e: Event, i: nat)
    requires LogNamesRows(w)
    ensures CountsOf(Next(w, e).log, i).deliveries == CountsOf(w.log, i).deliveries + Unit(DeliversRow(w, e, i))
  {
    if e.Ticked? {
      if i < |w.rows| {
        TickRelaysReached(w, e.tick, i);
      } else {
        NothingLogged(w.log, i);
        TickNamesRows(w, e.tick, |PendingIds(w.rows, |w.rows|)|);
        NothingLogged(Next(w, e).log, i);
      }
    }
  }

  lemma {:induction false} DeliveriesAreCounted(events: seq<Event>, i: nat)
    ensures CountsOf(Run(EMPTY, events).log, i).deliveries == |DeliveryTimes(events, i)|
  {
    if events != [] {
      var front := events[..|events| - 1];
      DeliveriesAreCounted(front, i);
      LogAlwaysNamesRows(front);
      StepDeliveries(Run(EMPTY, front), events[|events| - 1], i);
    }
  }

  lemma EarlierDelivery(events: seq<Event>, n: nat, k: nat, i: nat)
    requires k < n <= |events|
    ensures DeliversAt(events, k, i) <==> DeliversAt(events[..n], k, i)
  {
    assert events[..n][..k] == events[..k];
  }

  predicate IncreasesBelow(times: seq<nat>, n: nat) {
    && (forall a | 0 <= a < |times| :: times[a] < n)
    && (forall a, b | 0 <= a < b < |times| :: times[a] < times[b])
  }

  lemma {:induction false} TimesIncrease(events: seq<Event>, i: nat)
    ensures IncreasesBelow(DeliveryTimes(events, i), |events|)
  {
    if events != [] {
      var n := |events| - 1;
      var earlier, times := DeliveryTimes(events[..n], i), DeliveryTimes(events, i);
      TimesIncrease(events[..n], i);
      assert times == earlier + [n] || times == earlier + [];
      OneTimeMore(earlier, n);
    }
  }

  lemma OneTimeMore(times: seq<nat>, n: nat)
    requires IncreasesBelow(times, n)
    ensures IncreasesBelow(times + [n], n + 1) && IncreasesBelow(times + [], n + 1)
  {
    assert times + [] == times;
  }

  lemma {:induction false} IsDeliveryTimeIff(events: seq<Event>, k: nat, i: nat)
    ensures k in DeliveryTimes(events, i) <==> DeliversAt(events, k, i)
  {
    if events != [] {
      var n := |events| - 1;
      TimesIncrease(events[..n], i);
      if k < n {
        EarlierDelivery(events, n, k, i);
        IsDeliveryTimeIff(events[..n], k, i);
      } else {
        assert k !in DeliveryTimes(events[..n], i);
      }
    }
  }

  // ---- the second delivery

  /** A delivering step after which the row is still pending: by its timeout, by the outcome of the save of
      the SENT row and of the failure, and by the attempts so far. */
  predicate Forgets(row: Row, step: Step) {
    if Reports(step.relay) && step.saveSent.Works? then false
    else if Reports(step.relay) && step.saveSent.Crashes? then true
    else if TakesEffect(step.saveFailure) then row.attempts + 1 < MAX_RELAY_ATTEMPTS
    else !(Reports(step.relay) && step.saveSent.LosesReply?)
  }

  lemma ForgetsIffPending(row: Row, step: Step)
    requires row.status.PENDING?
    ensures RowAfter(row, step).status.PENDING? <==> Forgets(row, step)
  {
  }

  ghost predicate ForgetsAt(events: seq<Event>, k: nat, i: nat) {
    && k < |events| && events[k].Ticked? && i < |Run(EMPTY, events[..k]).rows|
    && Forgets(Run(EMPTY, events[..k]).rows[i], StepAt(events[k].tick, i))
  }

  lemma RunSince(events: seq<Event>, j: nat, k: nat)
    requires j < k <= |events|
    ensures Run(EMPTY, events[..k]) == Run(Next(Run(EMPTY, events[..j]), events[j]), events[j + 1..k])
  {
    assert events[..j + 1] + events[j + 1..k] == events[..k];
    RunOfBoth(EMPTY, events[..j + 1], events[j + 1..k]);
    assert events[..j + 1][..j] == events[..j];
  }

  lemma DeliveredAgainWasForgotten(events: seq<Event>, j: nat, k: nat, i: nat)
    requires j < k && DeliversAt(events, j, i) && DeliversAt(events, k, i)
    ensures ForgetsAt(events, j, i)
  {
    var w, e := Run(EMPTY, events[..j]), events[j];
    TickRelaysReached(w, e.tick, i);
    ForgetsIffPending(w.rows[i], StepAt(e.tick, i));
    RunSince(events, j, k);
    if !Next(w, e).rows[i].status.PENDING? {
      TerminalRowsStay(Next(w, e), events[j + 1..k], i);
      assert false;
    }
  }

  /** Some event delivers the row and leaves it pending, and a later one delivers it again. */
  ghost predicate DeliversAgain(events: seq<Event>, i: nat) {
    exists j: nat, k: nat ::
      j < k && DeliversAt(events, j, i) && ForgetsAt(events, j, i) && DeliversAt(events, k, i)
  }

  lemma TwoDeliveries(events: seq<Event>, i: nat)
    requires |DeliveryTimes(events, i)| >= 2
    ensures DeliversAgain(events, i)
  {
    var times := DeliveryTimes(events, i);
    TimesIncrease(events, i);
    IsDeliveryTimeIff(events, times[0], i);
    IsDeliveryTimeIff(events, times[1], i);
    DeliveredAgainWasForgotten(events, times[0], times[1], i);
  }

  lemma TwoTimes(events: seq<Event>, i: nat, j: nat, k: nat)
    requires j < k && DeliversAt(events, j, i) && DeliversAt(events, k, i)
    ensures |DeliveryTimes(events, i)| >= 2
  {
    IsDeliveryTimeIff(events, j, i);
    IsDeliveryTimeIff(events, k, i);
  }

  /** Over any run, whatever fails or crashes, a row is delivered more than once if and only if some event
      delivers it and leaves it pending, and a later one delivers it again. */
  lemma DeliveredAgainIff(events: seq<Event>, i: nat)
    ensures CountsOf(Run(EMPTY, events).log, i).deliveries >= 2 <==> DeliversAgain(events, i)
  {
    DeliveriesAreCounted(events, i);
    if |DeliveryTimes(events, i)| >= 2 {
      TwoDeliveries(events, i);
    }
    if DeliversAgain(events, i) {
      var j: nat, k: nat :|
        j < k && DeliversAt(events, j, i) && ForgetsAt(events, j, i) && DeliversAt(events, k, i);
      TwoTimes(events, i, j, k);
    }
  }

  /** So a row that is SENT was delivered exactly once unless the run delivers it again. */
  lemma SentOnceIff(events: seq<Event>, i: nat)
    requires i < |Run(EMPTY, events).rows| && Run(EMPTY, events).rows[i].status.SENT?
    ensures CountsOf(Run(EMPTY, events).log, i).deliveries == 1 <==> !DeliversAgain(events, i)
  {
    RowsAreSound(events, i);
    DeliveredAgainIff(events, i);
  }

  /** Every forgetting step can lead there: a pending row is delivered by it and, on the next tick, again. */
  lemma LostSaveDeliversAgain(w: World, i: nat, first: Step, second: Step)
    requires LogNamesRows(w) && i < |w.rows| && w.rows[i].status.PENDING?
    requires Delivers(first.relay) && Forgets(w.rows[i], first) && Delivers(second.relay)
    ensures var v := Next(Next(w, Ticked(map[i := first])), Ticked(map[i := second]));
      CountsOf(v.log, i).deliveries == CountsOf(w.log, i).deliveries + 2
  {
    var a, b := Ticked(map[i := first]), Ticked(map[i := second]);
    var u := Next(w, a);
    assert Reached(w, a.tick, i);
    TickRelaysReached(w, a.tick, i);
    ForgetsIffPending(w.rows[i], first);
    TickNamesRows(w, a.tick, |PendingIds(w.rows, |w.rows|)|);
    assert Reached(u, b.tick, i);
    StepDeliveries(w, a, i);
    StepDeliveries(u, b, i);
  }

  /** The ways to forget a delivery, before the last attempt: a timeout hides it, the save of the SENT row
      is rejected, takes effect but loses its reply, or crashes. */
  lemma WaysToForget(row: Row)
    requires row.attempts + 1 < MAX_RELAY_ATTEMPTS
    ensures var answered, late := Fired([true], false), Fired([true], true);
      && Delivers(answered) && Delivers(late)
      && (forall saveSent :: Forgets(row, Step(late, saveSent, Works)))
      && (forall saveSent, saveFailure | saveSent in {Throws, LosesReply} && TakesEffect(saveFailure) ::
            Forgets(row, Step(answered, saveSent, saveFailure)))
      && (forall saveFailure :: Forgets(row, Step(answered, Crashes, saveFailure)))
  {
    FirstPostDelivers(false);
    FirstPostDelivers(true);
  }

  lemma FirstPostDelivers(timesOut: bool)
    ensures Delivers(Fired([true], timesOut))
  {
    var succeeds := Answer(Fired([true], timesOut));
    assert succeeds(0);
    assert Calls(succeeds, 1) == 1;
    assert Calls(succeeds, 2) == 1;
    assert Calls(succeeds, 3) == 1;
  }
}
