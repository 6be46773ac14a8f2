/** Whole serial runs of paying, retrying and restarting the service. */
module PaymentRuns {
  import opened RbacConstants
  import opened BillingTables
  import opened PaymentService
  import opened CatalogSeeder

  datatype Event =
    | Pay(dto: CreatePaymentDto, actor: Actor, answer: BbpsAnswer)
    | RetryPayment(id: nat, actor: Actor, answer: BbpsAnswer)
    | Restart(catalog: seq<CatalogRow>)

  function Step(t: Tables, e: Event): Tables {
    match e
    case Pay(dto, actor, answer) => AfterCreate(t, dto, actor, answer)
    case RetryPayment(id, actor, answer) => AfterRetry(t, id, actor, answer)
    case Restart(catalog) => AfterRestart(t, catalog)
  }

  function Run(t: Tables, events: seq<Event>): Tables {
    if events == [] then t else Step(Run(t, events[..|events| - 1]), events[|events| - 1])
  }

  /** Tables before the first payment: nothing stored, nothing sent, nothing paid. */
  ghost predicate Fresh(t: Tables) {
    && t.payments == [] && t.dispatched == []
    && UniquePairs(t.mock) && UniquePairs(t.demo)
    && (forall i | 0 <= i < |t.mock| :: t.mock[i].status == UNPAID)
    && (forall i | 0 <= i < |t.demo| :: t.demo[i].status == UNPAID)
  }

  ghost predicate NoRestart(events: seq<Event>) {
    forall i | 0 <= i < |events| :: !events[i].Restart?
  }

  ghost predicate OnlyPays(events: seq<Event>) {
    forall i | 0 <= i < |events| :: events[i].Pay?
  }

  ghost predicate RetrySucceeds(t: Tables, e: Event) {
    e.RetryPayment? && RetryDispatches(t, e.id, e.actor) && e.answer.Answered? && e.answer.status.SUCCESS?
  }

  lemma StepIsLocal(t: Tables, e: Event)
    requires !e.Restart?
    ensures SameBilling(t, Step(t, e))
    ensures |t.payments| <= |Step(t, e).payments| <= |t.payments| + 1
  {
  }

  lemma {:induction false} RunIsLocal(t: Tables, events: seq<Event>)
    requires NoRestart(events)
    ensures SameBilling(t, Run(t, events))
  {
    if events != [] {
      var front := events[..|events| - 1];
      RunIsLocal(t, front);
      StepIsLocal(Run(t, front), events[|events| - 1]);
      SameBillingTransitive(t, Run(t, front), Run(t, events));
    }
  }

  lemma SameBillingTransitive(t: Tables, u: Tables, w: Tables)
    requires SameBilling(t, u) && SameBilling(u, w)
    ensures SameBilling(t, w)
  {
    forall i | 0 <= i < |t.mock| ensures SameBill(t.mock[i], w.mock[i]) {
      assert SameBill(t.mock[i], u.mock[i]) && SameBill(u.mock[i], w.mock[i]);
    }
    forall i | 0 <= i < |t.demo| ensures SameBill(t.demo[i], w.demo[i]) {
      assert SameBill(t.demo[i], u.demo[i]) && SameBill(u.demo[i], w.demo[i]);
    }
  }

  /** A stored payment keeps its charge, key and owner; once SUCCESS it never changes at all. */
  ghost predicate KeepsPayments(before: seq<Payment>, after: seq<Payment>) {
    && |before| <= |after|
    && forall i | 0 <= i < |before| ::
         && after[i].pair == before[i].pair && after[i].amount == before[i].amount
         && after[i].idempotencyKey == before[i].idempotencyKey
         && after[i].keycloakUserId == before[i].keycloakUserId
         && (before[i].status.SUCCESS? ==> after[i] == before[i])
  }

  lemma StepKeepsPayments(t: Tables, e: Event)
    ensures KeepsPayments(t.payments, Step(t, e).payments)
  {
  }

  /** Only a request that pays adds a row, and the row carries the charge of the record it names. */
  lemma NewPaymentOrigin(t: Tables, e: Event)
    requires |Step(t, e).payments| != |t.payments|
    ensures e.Pay? && Pays(t, e.dto, e.actor) && e.answer.Answered?
    ensures Step(t, e).payments ==
      t.payments + [NewPayment(BillAt(t, NamedRecord(t, e.dto).value), e.dto, e.actor, e.answer)]
  {
  }

  lemma RunThen(t: Tables, events: seq<Event>, e: Event)
    ensures Run(t, events + [e]) == Step(Run(t, events), e)
  {
    assert (events + [e])[..|events|] == events;
  }

  lemma RunOfTwo(t: Tables, a: Event, b: Event)
    ensures Run(t, [a, b]) == Step(Step(t, a), b)
  {
    RunThen(t, [], a);
    RunThen(t, [a], b);
    assert [] + [a] == [a] && [a] + [b] == [a, b];
  }

  lemma RunOfThree(t: Tables, a: Event, b: Event, c: Event)
    ensures Run(t, [a, b, c]) == Step(Step(Step(t, a), b), c)
  {
    RunOfTwo(t, a, b);
    RunThen(t, [a, b], c);
    assert [a, b] + [c] == [a, b, c];
  }
}
