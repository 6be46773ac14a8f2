/** What every serial run of paying, retrying and restarting keeps: paid bills and successful payments
    agree and are final, an idempotency key replays its payment, and every dispatch is accounted for. */
module PaymentHistory {
  import opened Outcomes
  import opened RbacConstants
  import opened BillingTables
  import opened PaymentService
  import opened CatalogSeeder
  import opened PaymentRuns

  // ---- paid exactly when successfully paid

  ghost predicate PaidAnywhere(t: Tables, pair: Pair) {
    PaidPair(t.mock, pair) || PaidPair(t.demo, pair)
  }

  ghost predicate HasSuccess(payments: seq<Payment>, pair: Pair) {
    exists i | 0 <= i < |payments| :: payments[i].pair == pair && payments[i].status.SUCCESS?
  }

  /** Pairs are unique per table, every payment's pair still names a bill, and a pair is paid exactly
      when one of its payments succeeded. */
  ghost predicate Agreed(t: Tables) {
    && UniquePairs(t.mock) && UniquePairs(t.demo)
    && (forall i | 0 <= i < |t.payments| :: LookupByPair(t, t.payments[i].pair).Some?)
    && (forall pair :: PaidAnywhere(t, pair) <==> HasSuccess(t.payments, pair))
  }

  lemma MarkPaidPays(t: Tables, record: BillingRecord)
    requires Exists(t, record)
    ensures var u := MarkPaid(t, record);
      && SameBilling(t, u)
      && KeepsPaid(t.mock, u.mock) && KeepsPaid(t.demo, u.demo)
      && forall pair :: PaidAnywhere(u, pair) <==> (PaidAnywhere(t, pair) || pair == BillAt(t, record).pair)
  {
    var u := MarkPaid(t, record);
    match record
    case InMock(row) => PaidAtRow(t.mock, row);
    case InDemo(row) => PaidAtRow(t.demo, row);
  }

  lemma PaidAtRow(bills: seq<Bill>, row: nat)
    requires row < |bills|
    ensures forall pair ::
      PaidPair(bills[row := bills[row].(status := PAID)], pair) <==> (PaidPair(bills, pair) || pair == bills[row].pair)
  {
    var after := bills[row := bills[row].(status := PAID)];
    assert after[row].pair == bills[row].pair && after[row].status == PAID;
    forall pair: Pair
      ensures PaidPair(after, pair) <==> (PaidPair(bills, pair) || pair == bills[row].pair)
    {
      if PaidPair(bills, pair) {
        var i :| 0 <= i < |bills| && bills[i].pair == pair && bills[i].status == PAID;
        assert after[i].pair == pair && after[i].status == PAID;
      }
      if PaidPair(after, pair) && pair != bills[row].pair {
        var i :| 0 <= i < |after| && after[i].pair == pair && after[i].status == PAID;
        assert bills[i].pair == pair && bills[i].status == PAID;
      }
    }
  }

  /** The pairs with a SUCCESS payment, plus the given one if it succeeded. */
  ghost predicate GainsSuccess(before: seq<Payment>, after: seq<Payment>, success: bool, gained: Pair) {
    forall pair :: HasSuccess(after, pair) <==> HasSuccess(before, pair) || (success && pair == gained)
  }

  lemma SuccessAppend(payments: seq<Payment>, payment: Payment)
    ensures GainsSuccess(payments, payments + [payment], payment.status.SUCCESS?, payment.pair)
  {
    var after := payments + [payment];
    assert after[|payments|] == payment;
    forall pair: Pair | HasSuccess(payments, pair)
      ensures HasSuccess(after, pair)
    {
      var i :| 0 <= i < |payments| && payments[i].pair == pair && payments[i].status.SUCCESS?;
      assert after[i] == payments[i];
    }
  }

  lemma SuccessUpdate(payments: seq<Payment>, id: nat, payment: Payment)
    requires id < |payments| && !payments[id].status.SUCCESS? && payment.pair == payments[id].pair
    ensures GainsSuccess(payments, payments[id := payment], payment.status.SUCCESS?, payment.pair)
  {
    var after := payments[id := payment];
    assert after[id] == payment;
    forall pair: Pair | HasSuccess(payments, pair)
      ensures HasSuccess(after, pair)
    {
      var i :| 0 <= i < |payments| && payments[i].pair == pair && payments[i].status.SUCCESS?;
      assert after[i] == payments[i];
    }
  }

  /** Every step keeps every row's identity, every PAID status and every SUCCESS payment. */
  ghost predicate Advances(t: Tables, u: Tables) {
    KeepsPaid(t.mock, u.mock) && KeepsPaid(t.demo, u.demo) && KeepsPayments(t.payments, u.payments)
  }

  /** Storing payments of a record's pair and marking the record when one of them succeeds. */
  lemma StoredAgrees(
      t: Tables, payments: seq<Payment>, dispatched: seq<BbpsRequest>, success: bool, record: BillingRecord)
    requires Agreed(t) && Exists(t, record)
    requires GainsSuccess(t.payments, payments, success, BillAt(t, record).pair)
    requires forall i | 0 <= i < |payments| ::
      payments[i].pair == BillAt(t, record).pair || (i < |t.payments| && payments[i].pair == t.payments[i].pair)
    ensures var stored := t.(payments := payments, dispatched := dispatched);
      var u := if success then MarkPaid(stored, record) else stored;
      Agreed(u) && KeepsPaid(t.mock, u.mock) && KeepsPaid(t.demo, u.demo)
  {
    var stored := t.(payments := payments, dispatched := dispatched);
    assert forall pair :: PaidAnywhere(stored, pair) == PaidAnywhere(t, pair);
    MarkPaidPays(stored, record);
    var u := if success then MarkPaid(stored, record) else stored;
    assert SameBilling(t, u);
    SameBillingSameLookups(t, u);
    PairOfRecordNamesARecord(t, record);
    UniqueSurvives(t.mock, u.mock);
    UniqueSurvives(t.demo, u.demo);
  }

  lemma UniqueSurvives(a: seq<Bill>, b: seq<Bill>)
    requires UniquePairs(a) && SameBills(a, b)
    ensures UniquePairs(b)
  {
    forall i, j | 0 <= i < j < |b| ensures b[i].pair != b[j].pair {
      assert SameBill(a[i], b[i]) && SameBill(a[j], b[j]);
    }
  }

  lemma PayAgrees(t: Tables, dto: CreatePaymentDto, actor: Actor, answer: BbpsAnswer)
    requires Agreed(t) && Pays(t, dto, actor)
    ensures var u := PayNew(t, dto, actor, answer); Agreed(u) && Advances(t, u)
  {
    var record := NamedRecord(t, dto).value;
    var bill := BillAt(t, record);
    var sent := Dispatch(t, bill.pair, bill.amount);
    if answer.Answered? {
      var payment := NewPayment(bill, dto, actor, answer);
      SuccessAppend(t.payments, payment);
      StoredAgrees(t, t.payments + [payment], sent.dispatched, answer.status.SUCCESS?, record);
    } else {
      StoredAgrees(t, t.payments, sent.dispatched, false, record);
    }
  }

  lemma PairOfRecordNamesARecord(t: Tables, record: BillingRecord)
    requires Exists(t, record)
    ensures LookupByPair(t, BillAt(t, record).pair).Some?
  {
    match record
    case InMock(row) => assert RowByPair(t.mock, t.mock[row].pair).Some?;
    case InDemo(row) => assert RowByPair(t.demo, t.demo[row].pair).Some?;
  }

  lemma RetryAgrees(t: Tables, id: nat, actor: Actor, answer: BbpsAnswer)
    requires Agreed(t) && RetryDispatches(t, id, actor)
    ensures var u := AfterRetry(t, id, actor, answer); Agreed(u) && Advances(t, u)
  {
    var payment := t.payments[id];
    var record := LookupByPair(t, payment.pair).value;
    var sent := Dispatch(t, payment.pair, payment.amount);
    if answer.Answered? {
      var stored, retried := RetryStored(t, id, answer), Retried(payment, answer);
      var after := t.payments[id := retried];
      assert stored.payments == after && retried.status == answer.status;
      SameBillingSameLookups(t, stored);
      SuccessUpdate(t.payments, id, retried);
      assert BillAt(t, record).pair == payment.pair == retried.pair;
      StoredAgrees(t, after, sent.dispatched, answer.status.SUCCESS?, record);
    } else {
      StoredAgrees(t, t.payments, sent.dispatched, false, record);
    }
  }

  lemma RestartAgrees(t: Tables, catalog: seq<CatalogRow>)
    requires Agreed(t)
    ensures var u := AfterRestart(t, catalog); Agreed(u) && Advances(t, u)
  {
    var u := AfterRestart(t, catalog);
    SeedKeeps(t.mock, catalog);
    SeedKeeps(t.demo, catalog);
    forall i | 0 <= i < |u.payments|
      ensures LookupByPair(u, u.payments[i].pair).Some?
    {
      var record := LookupByPair(t, u.payments[i].pair).value;
      assert BillAt(u, record).pair == u.payments[i].pair;
      PairOfRecordNamesARecord(u, record);
    }
  }

  lemma StepAgrees(t: Tables, e: Event)
    requires Agreed(t)
    ensures Agreed(Step(t, e)) && Advances(t, Step(t, e))
  {
    match e
    case Pay(dto, actor, answer) =>
      if Pays(t, dto, actor) {
        PayAgrees(t, dto, actor, answer);
      } else {
        assert Step(t, e) == t;
      }
    case RetryPayment(id, actor, answer) =>
      if RetryDispatches(t, id, actor) {
        RetryAgrees(t, id, actor, answer);
      } else {
        assert Step(t, e) == t;
      }
    case Restart(catalog) => RestartAgrees(t, catalog);
  }

  /** Over every run from fresh tables, restarts included, a biller's consumer has a PAID bill in one of
      the two tables exactly when one of the stored payments for it is SUCCESS. */
  lemma {:induction false} PaidExactlyWhenSuccess(t: Tables, events: seq<Event>)
    requires Fresh(t)
    ensures Agreed(Run(t, events))
  {
    if events == [] {
      forall pair ensures !PaidAnywhere(t, pair) { }
    } else {
      PaidExactlyWhenSuccess(t, events[..|events| - 1]);
      StepAgrees(Run(t, events[..|events| - 1]), events[|events| - 1]);
    }
  }

  /** PAID and SUCCESS are final: whatever happens later, no paid bill is unpaid again and no
      successful payment changes. */
  lemma {:induction false} PaidAndSuccessAreFinal(t: Tables, events: seq<Event>)
    requires Agreed(t)
    ensures Advances(t, Run(t, events)) && Agreed(Run(t, events))
  {
    if events != [] {
      PaidAndSuccessAreFinal(t, events[..|events| - 1]);
      StepAgrees(Run(t, events[..|events| - 1]), events[|events| - 1]);
    }
  }

  // ---- replay

  lemma {:induction false} RunKeepsPayments(t: Tables, events: seq<Event>)
    ensures KeepsPayments(t.payments, Run(t, events).payments)
  {
    if events != [] {
      RunKeepsPayments(t, events[..|events| - 1]);
      StepKeepsPayments(Run(t, events[..|events| - 1]), events[|events| - 1]);
    }
  }

  lemma KeyKeepsItsRow(before: seq<Payment>, after: seq<Payment>, key: string)
    requires KeepsPayments(before, after) && RowByKey(before, key).Some?
    ensures RowByKey(after, key) == RowByKey(before, key)
  {
    var row := RowByKey(before, key).value;
    assert after[row].idempotencyKey == key;
    forall j | 0 <= j < row ensures after[j].idempotencyKey != key {
      assert before[j].idempotencyKey != key;
    }
  }

  lemma StoredUnderItsKey(t: Tables, dto: CreatePaymentDto, actor: Actor, answer: BbpsAnswer)
    requires CreateReply(t, dto, actor, answer).Ok?
    requires !CreateReply(t, dto, actor, answer).value.duplicate
    ensures var u := AfterCreate(t, dto, actor, answer);
      && actor.sub != "" && Complete(dto) && CreateReply(t, dto, actor, answer).value.paymentId == |t.payments|
      && |u.payments| == |t.payments| + 1
      && RowByKey(u.payments, dto.idempotencyKey) == Some(|t.payments|)
      && u.payments[|t.payments|].keycloakUserId == actor.sub
      && SamePaymentRequest(u, dto, u.payments[|t.payments|])
      && SameBilling(t, u)
  {
    var u := AfterCreate(t, dto, actor, answer);
    var record := NamedRecord(t, dto).value;
    assert Pays(t, dto, actor);
    assert u.payments == t.payments + [NewPayment(BillAt(t, record), dto, actor, answer)];
    var row := RowByKey(u.payments, dto.idempotencyKey);
    assert u.payments[|t.payments|].idempotencyKey == dto.idempotencyKey;
    assert forall j | 0 <= j < |t.payments| :: u.payments[j].idempotencyKey != dto.idempotencyKey;
    StepIsLocal(t, Pay(dto, actor, answer));
    SameBillingSameLookups(t, u);
    assert SameBill(BillAt(t, record), BillAt(u, record));
  }

  lemma SameRequestSurvives(t: Tables, u: Tables, dto: CreatePaymentDto, before: Payment, after: Payment)
    requires SameBilling(t, u) || dto.billNumber == ""
    requires before.pair == after.pair && before.amount == after.amount
    requires SamePaymentRequest(t, dto, before)
    ensures SamePaymentRequest(u, dto, after)
  {
    if dto.billNumber != "" {
      SameBillingSameLookups(t, u);
      var record := LookupByNumber(t, dto.billNumber).value;
      assert SameBill(BillAt(t, record), BillAt(u, record));
    }
  }

  /** A payment stored under a key is found again by that key after any further run: the owner's request
      never pays again and changes nothing. It returns the stored payment as a duplicate when the run
      had no restart or the request names the bill by biller and consumer; otherwise exactly when the
      bill its number then names still has the payment's pair and amount. Nobody else's request with
      the key sees or changes anything. */
  lemma KeyReplaysItsPayment(
      t: Tables, dto: CreatePaymentDto, actor: Actor, answer: BbpsAnswer, events: seq<Event>, again: BbpsAnswer,
      other: Actor)
    requires CreateReply(t, dto, actor, answer).Ok?
    requires !CreateReply(t, dto, actor, answer).value.duplicate
    requires other.sub != "" && other.sub != actor.sub
    ensures var id := CreateReply(t, dto, actor, answer).value.paymentId;
      var w := Run(AfterCreate(t, dto, actor, answer), events);
      && id < |w.payments|
      && AfterCreate(w, dto, actor, again) == w
      && CreateReply(w, dto, actor, again) ==
           (if SamePaymentRequest(w, dto, w.payments[id]) then Ok(ReceiptFor(id, w.payments[id], true))
            else Err(IdempotencyKeyReused))
      && (NoRestart(events) || dto.billNumber == "" ==> SamePaymentRequest(w, dto, w.payments[id]))
      && AfterCreate(w, dto, other, again) == w
      && CreateReply(w, dto, other, again) == Err(PaymentNotFound)
  {
    var u := AfterCreate(t, dto, actor, answer);
    StoredUnderItsKey(t, dto, actor, answer);
    var id := CreateReply(t, dto, actor, answer).value.paymentId;
    var w := Run(u, events);
    RunKeepsPayments(u, events);
    KeyKeepsItsRow(u.payments, w.payments, dto.idempotencyKey);
    assert w.payments[id].keycloakUserId == actor.sub;
    if NoRestart(events) {
      RunIsLocal(u, events);
    }
    if NoRestart(events) || dto.billNumber == "" {
      SameRequestSurvives(u, w, dto, u.payments[id], w.payments[id]);
    }
  }

  // ---- dispatches

  /** Retries that reach the payment network. */
  ghost function RetriesSent(t: Tables, events: seq<Event>): nat {
    if events == [] then 0
    else
      var front, e := events[..|events| - 1], events[|events| - 1];
      RetriesSent(t, front) +
      if e.RetryPayment? && RetryDispatches(Run(t, front), e.id, e.actor) then 1 else 0
  }

  /** Payment requests that reach the payment network and get no answer. */
  ghost function PaysUnanswered(t: Tables, events: seq<Event>): nat {
    if events == [] then 0
    else
      var front, e := events[..|events| - 1], events[|events| - 1];
      PaysUnanswered(t, front) +
      if e.Pay? && Pays(Run(t, front), e.dto, e.actor) && e.answer.Unreachable? then 1 else 0
  }

  lemma StepDispatches(t: Tables, e: Event)
    ensures var u := Step(t, e);
      |u.dispatched| - |t.dispatched| ==
        (|u.payments| - |t.payments|)
        + (if e.RetryPayment? && RetryDispatches(t, e.id, e.actor) then 1 else 0)
        + (if e.Pay? && Pays(t, e.dto, e.actor) && e.answer.Unreachable? then 1 else 0)
  {
    if e.Pay? && !Pays(t, e.dto, e.actor) {
      assert Step(t, e) == t;
    }
  }

  /** Each number in the table belongs to one row. */
  ghost predicate UniqueNumbers(bills: seq<Bill>) {
    forall i, j | 0 <= i < j < |bills| :: bills[i].billNumber != bills[j].billNumber
  }

  lemma SeededRow(bills: seq<Bill>, catalog: seq<CatalogRow>, k: nat, row: nat)
    requires UniquePairs(bills) && DistinctPairs(catalog) && k < |catalog|
    requires row < |Seed(bills, catalog)| && Seed(bills, catalog)[row].pair == catalog[k].pair
    ensures Seed(bills, catalog)[row].billNumber == catalog[k].billNumber
    ensures Seed(bills, catalog)[row].amount == catalog[k].amount
  {
    var seeded := Seed(bills, catalog);
    SeedKeeps(bills, catalog);
    SeedInstalls(bills, catalog, k);
    var i :| 0 <= i < |seeded| && seeded[i].pair == catalog[k].pair
      && seeded[i].billNumber == catalog[k].billNumber && seeded[i].amount == catalog[k].amount;
    assert i == row;
  }

  /** After a re-seeding whose catalog names the paid bill, a request by number is still the stored payment's
      exactly when the catalog gives the bill that number and the amount that was paid. */
  lemma ReplaySurvivesSeedingIff(t: Tables, catalog: seq<CatalogRow>, k: nat, dto: CreatePaymentDto, existing: Payment)
    requires UniquePairs(t.mock) && UniquePairs(t.demo) && DistinctPairs(catalog) && k < |catalog|
    requires catalog[k].pair == existing.pair && dto.billNumber != "" && UniqueNumbers(Seed(t.mock, catalog))
    ensures SamePaymentRequest(AfterRestart(t, catalog), dto, existing) <==>
      catalog[k].billNumber == dto.billNumber && catalog[k].amount == existing.amount
  {
    var u := AfterRestart(t, catalog);
    var found := LookupByNumber(u, dto.billNumber);
    if found.Some? && BillAt(u, found.value).pair == existing.pair {
      SeededRow(if found.value.InMock? then t.mock else t.demo, catalog, k, found.value.row);
    }
    if catalog[k].billNumber == dto.billNumber {
      SeedInstalls(t.mock, catalog, k);
      var i :| 0 <= i < |u.mock| && u.mock[i].pair == catalog[k].pair
        && u.mock[i].billNumber == catalog[k].billNumber && u.mock[i].amount == catalog[k].amount;
      assert RowByNumber(u.mock, dto.billNumber) == Some(i);
    }
  }

  /** A re-seeding with a new amount turns the replay of a stored payment into a refusal. */
  lemma SeedingCanRefuseReplay(bill: Bill, amount: int, dto: CreatePaymentDto, actor: Actor, answer: BbpsAnswer)
    requires bill.status == UNPAID && dto.billNumber == bill.billNumber != "" && dto.amount.NoAmount?
    requires actor.sub != "" && answer.Answered? && amount != bill.amount
    ensures var t := Tables([bill], [], [], []);
      && CreateReply(t, dto, actor, answer).Ok? && !CreateReply(t, dto, actor, answer).value.duplicate
      && var w := Run(AfterCreate(t, dto, actor, answer), [Restart([CatalogRow(bill.pair, bill.billNumber, amount)])]);
         CreateReply(w, dto, actor, answer) == Err(IdempotencyKeyReused)
  {
    var t := Tables([bill], [], [], []);
    var catalog := [CatalogRow(bill.pair, bill.billNumber, amount)];
    assert RowByNumber(t.mock, bill.billNumber) == Some(0);
    StoredUnderItsKey(t, dto, actor, answer);
    var u := AfterCreate(t, dto, actor, answer);
    KeyReplaysItsPayment(t, dto, actor, answer, [Restart(catalog)], answer, Actor(actor.sub + "x", [], []));
    RunThen(u, [], Restart(catalog));
    assert [] + [Restart(catalog)] == [Restart(catalog)];
    OneRowSeeded(u, catalog[0]);
    ReplaySurvivesSeedingIff(u, catalog, 0, dto, u.payments[0]);
  }

  lemma OneRowSeeded(t: Tables, row: CatalogRow)
    requires |t.mock| == 1 && t.mock[0].pair == row.pair
    ensures |Seed(t.mock, [row])| == 1
  {
    assert [row][..0] == [];
    assert Seed(t.mock, []) == t.mock;
    assert RowByPair(t.mock, row.pair) == Some(0);
  }

  /** Every request ever sent is a stored payment, a retry, or a payment request left unanswered. */
  lemma {:induction false} DispatchesAreAccountedFor(t: Tables, events: seq<Event>)
    requires Fresh(t)
    ensures |Run(t, events).dispatched| ==
      |Run(t, events).payments| + RetriesSent(t, events) + PaysUnanswered(t, events)
  {
    if events != [] {
      DispatchesAreAccountedFor(t, events[..|events| - 1]);
      StepDispatches(Run(t, events[..|events| - 1]), events[|events| - 1]);
    }
  }

  // ---- one row per key

  ghost predicate DistinctKeys(payments: seq<Payment>) {
    forall i, j | 0 <= i < j < |payments| :: payments[i].idempotencyKey != payments[j].idempotencyKey
  }

  /** The unique index on the key is never violated in a serial run. */
  lemma {:induction false} KeysStayDistinct(t: Tables, events: seq<Event>)
    requires Fresh(t)
    ensures DistinctKeys(Run(t, events).payments)
  {
    if events != [] {
      var front, e := events[..|events| - 1], events[|events| - 1];
      var u := Run(t, front);
      KeysStayDistinct(t, front);
      StepKeepsPayments(u, e);
      if |Step(u, e).payments| != |u.payments| {
        NewPaymentOrigin(u, e);
      }
    }
  }
}
