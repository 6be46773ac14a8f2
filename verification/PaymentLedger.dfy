/** Money conservation over serial runs: what the SUCCESS payments collect against what the PAID bills
    settle, and how often one bill can be paid. */
module PaymentLedger {
  import opened Outcomes
  import opened Sums
  import opened RbacConstants
  import opened BillingTables
  import opened PaymentService
  import opened PaymentRuns

  datatype Charge = Charge(pair: Pair, amount: int)

  /** What a charge is worth: its amount, one per charge of a given pair, or anything else. */
  type Valuation = Charge -> int

  function Money(): (v: Valuation)
    ensures forall c :: v(c) == c.amount
  {
    (c: Charge) => c.amount
  }

  function CountOf(pair: Pair): (v: Valuation)
    ensures forall c :: v(c) == if c.pair == pair then 1 else 0
  {
    (c: Charge) => if c.pair == pair then 1 else 0
  }

  function PaymentCharge(p: Payment): Charge { Charge(p.pair, p.amount) }

  function BillCharge(b: Bill): Charge { Charge(b.pair, b.amount) }

  function SuccessWeight(v: Valuation): (w: Payment -> int)
    ensures forall p :: w(p) == if p.status.SUCCESS? then v(PaymentCharge(p)) else 0
  {
    (p: Payment) => if p.status.SUCCESS? then v(PaymentCharge(p)) else 0
  }

  function PaidWeight(v: Valuation): (w: Bill -> int)
    ensures forall b :: w(b) == if b.status.PAID? then v(BillCharge(b)) else 0
  {
    (b: Bill) => if b.status.PAID? then v(BillCharge(b)) else 0
  }

  /** The worth of all SUCCESS payments. */
  function Collected(t: Tables, v: Valuation): int {
    Sum(t.payments, SuccessWeight(v))
  }

  /** The worth of all PAID bills. */
  function Settled(t: Tables, v: Valuation): int {
    Sum(t.mock, PaidWeight(v)) + Sum(t.demo, PaidWeight(v))
  }

  /** What one event collects beyond what it settles: only a retry can, and it collects the payment's
      charge while settling the charge of the bill its pair names, or nothing when that is paid. */
  function Excess(t: Tables, e: Event, v: Valuation): int {
    if e.RetryPayment? && RetryDispatches(t, e.id, e.actor) && e.answer.Answered? && e.answer.status.SUCCESS? then
      var payment := t.payments[e.id];
      var found := LookupByPair(t, payment.pair);
      v(PaymentCharge(payment)) -
      (if found.Some? && BillAt(t, found.value).status != PAID then v(BillCharge(BillAt(t, found.value))) else 0)
    else 0
  }

  function RunExcess(t: Tables, events: seq<Event>, v: Valuation): int {
    if events == [] then 0
    else
      var front := events[..|events| - 1];
      RunExcess(t, front, v) + Excess(Run(t, front), events[|events| - 1], v)
  }

  lemma MarkPaidSettles(t: Tables, record: BillingRecord, v: Valuation)
    requires Exists(t, record)
    ensures Settled(MarkPaid(t, record), v) ==
            Settled(t, v) + if BillAt(t, record).status == PAID then 0 else v(BillCharge(BillAt(t, record)))
  {
    var bill := BillAt(t, record).(status := PAID);
    match record
    case InMock(row) => SumUpdate(t.mock, row, bill, PaidWeight(v));
    case InDemo(row) => SumUpdate(t.demo, row, bill, PaidWeight(v));
  }

  lemma PayBalances(t: Tables, dto: CreatePaymentDto, actor: Actor, answer: BbpsAnswer, v: Valuation)
    requires PayRefusal(t, dto).None?
    ensures Collected(PayNew(t, dto, actor, answer), v) - Settled(PayNew(t, dto, actor, answer), v)
         == Collected(t, v) - Settled(t, v)
  {
    var record := NamedRecord(t, dto).value;
    var bill := BillAt(t, record);
    if answer.Answered? {
      SumAppend(t.payments, NewPayment(bill, dto, actor, answer), SuccessWeight(v));
      MarkPaidSettles(t, record, v);
    }
  }

  lemma RetryBalances(t: Tables, id: nat, actor: Actor, answer: BbpsAnswer, v: Valuation)
    requires RetryDispatches(t, id, actor) && answer.Answered?
    ensures var u := AfterRetry(t, id, actor, answer);
      Collected(u, v) - Settled(u, v) ==
      Collected(t, v) - Settled(t, v) + Excess(t, RetryPayment(id, actor, answer), v)
  {
    var payment := t.payments[id];
    SumUpdate(t.payments, id, Retried(payment, answer), SuccessWeight(v));
    var stored := RetryStored(t, id, answer);
    SameBillingSameLookups(t, stored);
    var found := LookupByPair(stored, payment.pair);
    if answer.status.SUCCESS? && found.Some? {
      MarkPaidSettles(stored, found.value, v);
    }
  }

  /** Conservation over any serial run without a restart, whatever the payment network answers and for
      every way of valuing charges: what is collected is what is settled plus the retries' excess. */
  lemma {:induction false} MoneyIsConserved(t: Tables, events: seq<Event>, v: Valuation)
    requires NoRestart(events)
    ensures Collected(Run(t, events), v) - Settled(Run(t, events), v)
         == Collected(t, v) - Settled(t, v) + RunExcess(t, events, v)
  {
    if events != [] {
      var front, last := events[..|events| - 1], events[|events| - 1];
      MoneyIsConserved(t, front, v);
      var u := Run(t, front);
      match last
      case Pay(dto, actor, answer) =>
        if Pays(u, dto, actor) {
          PayBalances(u, dto, actor, answer, v);
        }
      case RetryPayment(id, actor, answer) =>
        if RetryDispatches(u, id, actor) && answer.Answered? {
          RetryBalances(u, id, actor, answer, v);
        }
      case Restart(_) =>
    }
  }

  lemma FreshIsEmpty(t: Tables, v: Valuation)
    requires Fresh(t)
    ensures Collected(t, v) == 0 && Settled(t, v) == 0
  {
    SumZero(t.mock, PaidWeight(v));
    SumZero(t.demo, PaidWeight(v));
  }

  lemma {:induction false} PaysHaveNoExcess(t: Tables, events: seq<Event>, v: Valuation)
    requires OnlyPays(events)
    ensures RunExcess(t, events, v) == 0
  {
    if events != [] {
      PaysHaveNoExcess(t, events[..|events| - 1], v);
    }
  }

  /** Without retries what is collected is exactly what the paid bills are worth, however charges are valued,
      so bill by bill: no assumption on which records share a number or a pair is needed. */
  lemma PaymentsSettleTheirBills(t: Tables, events: seq<Event>, v: Valuation)
    requires Fresh(t) && OnlyPays(events)
    ensures Collected(Run(t, events), v) == Settled(Run(t, events), v)
  {
    PaysHaveNoExcess(t, events, v);
    MoneyIsConserved(t, events, v);
    FreshIsEmpty(t, v);
  }

  /** A bill number and the pair of the bill it names reach the same record. */
  ghost predicate NumbersAgree(t: Tables) {
    forall number {:trigger LookupByNumber(t, number)} :: number != "" && LookupByNumber(t, number).Some? ==>
      var record := LookupByNumber(t, number).value;
      LookupByPair(t, BillAt(t, record).pair) == Some(record)
  }

  /** Every paid record is the one its pair names. */
  ghost predicate PaidArePrimary(t: Tables) {
    forall record | Exists(t, record) && BillAt(t, record).status == PAID ::
      LookupByPair(t, BillAt(t, record).pair) == Some(record)
  }

  lemma AgreementIsShared(t: Tables, u: Tables)
    requires SameBilling(t, u) && NumbersAgree(t)
    ensures NumbersAgree(u)
  {
    SameBillingSameLookups(t, u);
    forall number | number != "" && LookupByNumber(u, number).Some?
      ensures var record := LookupByNumber(u, number).value;
        LookupByPair(u, BillAt(u, record).pair) == Some(record)
    {
      var record := LookupByNumber(t, number).value;
      assert SameBill(BillAt(t, record), BillAt(u, record));
    }
  }

  lemma MarkPaidKeepsPrimary(t: Tables, record: BillingRecord)
    requires PaidArePrimary(t) && Exists(t, record)
    requires LookupByPair(t, BillAt(t, record).pair) == Some(record)
    ensures PaidArePrimary(MarkPaid(t, record))
  {
    var u := MarkPaid(t, record);
    assert SameBilling(t, u);
    SameBillingSameLookups(t, u);
    forall other | Exists(u, other) && BillAt(u, other).status == PAID
      ensures LookupByPair(u, BillAt(u, other).pair) == Some(other)
    {
      assert BillAt(u, other).pair == BillAt(t, other).pair;
      if other != record {
        assert BillAt(t, other).status == PAID;
      }
    }
  }

  lemma StepKeepsPrimary(t: Tables, e: Event)
    requires NumbersAgree(t) && PaidArePrimary(t) && !e.Restart?
    ensures NumbersAgree(Step(t, e)) && PaidArePrimary(Step(t, e))
  {
    StepIsLocal(t, e);
    AgreementIsShared(t, Step(t, e));
    match e
    case Pay(dto, actor, answer) =>
      if Pays(t, dto, actor) && answer.Answered? {
        var record := NamedRecord(t, dto).value;
        var stored := Dispatch(t, BillAt(t, record).pair, BillAt(t, record).amount)
          .(payments := t.payments + [NewPayment(BillAt(t, record), dto, actor, answer)]);
        PaymentsDoNotMatter(t, stored);
        MarkPaidKeepsPrimary(stored, record);
      }
    case RetryPayment(id, actor, answer) =>
      if RetryDispatches(t, id, actor) && answer.Answered? {
        var payment := t.payments[id];
        var stored := RetryStored(t, id, answer);
        PaymentsDoNotMatter(t, stored);
        var found := LookupByPair(stored, payment.pair);
        if found.Some? {
          MarkPaidKeepsPrimary(stored, found.value);
        }
      }
  }

  lemma PaymentsDoNotMatter(t: Tables, u: Tables)
    requires t.mock == u.mock && t.demo == u.demo
    ensures PaidArePrimary(t) ==> PaidArePrimary(u)
    ensures forall pair :: LookupByPair(t, pair) == LookupByPair(u, pair)
    ensures forall number :: LookupByNumber(t, number) == LookupByNumber(u, number)
  {
    SameBillingSameLookups(t, u);
    if PaidArePrimary(t) {
      forall record | Exists(u, record) && BillAt(u, record).status == PAID
        ensures LookupByPair(u, BillAt(u, record).pair) == Some(record)
      {
        assert Exists(t, record) && BillAt(t, record).status == PAID;
      }
    }
  }

  lemma {:induction false} RunKeepsPrimary(t: Tables, events: seq<Event>)
    requires Fresh(t) && NumbersAgree(t) && NoRestart(events)
    ensures NumbersAgree(Run(t, events)) && PaidArePrimary(Run(t, events))
  {
    if events != [] {
      var front := events[..|events| - 1];
      RunKeepsPrimary(t, front);
      StepKeepsPrimary(Run(t, front), events[|events| - 1]);
    }
  }

  lemma PrimaryPaidOnce(t: Tables, pair: Pair)
    requires PaidArePrimary(t)
    ensures 0 <= Settled(t, CountOf(pair)) <= 1
  {
    var w := PaidWeight(CountOf(pair));
    var found := LookupByPair(t, pair);
    forall i | 0 <= i < |t.mock| && w(t.mock[i]) != 0
      ensures found == Some(InMock(i))
    {
      assert Exists(t, InMock(i)) && BillAt(t, InMock(i)).status == PAID;
    }
    forall i | 0 <= i < |t.demo| && w(t.demo[i]) != 0
      ensures found == Some(InDemo(i))
    {
      assert Exists(t, InDemo(i)) && BillAt(t, InDemo(i)).status == PAID;
    }
    SumAtMostOne(t.mock, w);
    SumAtMostOne(t.demo, w);
    if found.Some? && found.value.InMock? {
      SumZero(t.demo, w);
    } else {
      SumZero(t.mock, w);
    }
  }

  /** Retries of payments of the pair that reach the payment network in the run. */
  function RetriesOf(t: Tables, events: seq<Event>, pair: Pair): nat {
    if events == [] then 0
    else
      var front, e := events[..|events| - 1], events[|events| - 1];
      var u := Run(t, front);
      RetriesOf(t, front, pair) +
      if e.RetryPayment? && RetryDispatches(u, e.id, e.actor) && u.payments[e.id].pair == pair then 1 else 0
  }

  lemma {:induction false} ExcessIsFromRetries(t: Tables, events: seq<Event>, pair: Pair)
    ensures RunExcess(t, events, CountOf(pair)) <= RetriesOf(t, events, pair)
  {
    if events != [] {
      ExcessIsFromRetries(t, events[..|events| - 1], pair);
    }
  }

  /** Where numbers and pairs agree, a pair has at most one SUCCESS payment, plus one for each retry of
      it that was sent. */
  lemma AtMostOnePaymentPlusRetries(t: Tables, events: seq<Event>, pair: Pair)
    requires Fresh(t) && NumbersAgree(t) && NoRestart(events)
    ensures Collected(Run(t, events), CountOf(pair)) <= 1 + RetriesOf(t, events, pair)
    ensures OnlyPays(events) ==> Collected(Run(t, events), CountOf(pair)) <= 1
  {
    MoneyIsConserved(t, events, CountOf(pair));
    FreshIsEmpty(t, CountOf(pair));
    ExcessIsFromRetries(t, events, pair);
    RunKeepsPrimary(t, events);
    PrimaryPaidOnce(Run(t, events), pair);
    if OnlyPays(events) {
      PaysHaveNoExcess(t, events, CountOf(pair));
    }
  }

  // ---- exactly when a bill is charged twice

  /** Every payment carries the charge of the bill its pair names. */
  ghost predicate PaymentsMatchBills(t: Tables) {
    forall i | 0 <= i < |t.payments| ::
      var found := LookupByPair(t, t.payments[i].pair);
      found.Some? && BillCharge(BillAt(t, found.value)) == PaymentCharge(t.payments[i])
  }

  lemma StepKeepsMatch(t: Tables, e: Event)
    requires NumbersAgree(t) && PaymentsMatchBills(t) && !e.Restart?
    ensures PaymentsMatchBills(Step(t, e))
  {
    var u := Step(t, e);
    StepIsLocal(t, e);
    SameBillingSameLookups(t, u);
    forall i | 0 <= i < |u.payments|
      ensures LookupByPair(u, u.payments[i].pair).Some?
      ensures BillCharge(BillAt(u, LookupByPair(u, u.payments[i].pair).value)) == PaymentCharge(u.payments[i])
    {
      var record: BillingRecord;
      StepKeepsPayments(t, e);
      if i < |t.payments| {
        record := LookupByPair(t, t.payments[i].pair).value;
        assert BillCharge(BillAt(t, record)) == PaymentCharge(t.payments[i]);
      } else {
        NewPaymentOrigin(t, e);
        record := NamedRecord(t, e.dto).value;
      }
      assert LookupByPair(t, u.payments[i].pair) == Some(record);
      assert SameBill(BillAt(t, record), BillAt(u, record));
    }
  }

  lemma {:induction false} RunKeepsMatch(t: Tables, events: seq<Event>)
    requires Fresh(t) && NumbersAgree(t) && NoRestart(events)
    ensures PaymentsMatchBills(Run(t, events))
  {
    if events != [] {
      var front := events[..|events| - 1];
      RunKeepsMatch(t, front);
      RunKeepsPrimary(t, front);
      StepKeepsMatch(Run(t, front), events[|events| - 1]);
    }
  }

  /** A retry that succeeds although the bill of its pair is already paid. */
  ghost predicate ChargesAgain(t: Tables, e: Event) {
    && RetrySucceeds(t, e)
    && var found := LookupByPair(t, t.payments[e.id].pair);
       found.Some? && BillAt(t, found.value).status == PAID
  }

  /** The worth of the charges such retries collect in a run. */
  ghost function ChargedAgain(t: Tables, events: seq<Event>, v: Valuation): int {
    if events == [] then 0
    else
      var front, e := events[..|events| - 1], events[|events| - 1];
      var u := Run(t, front);
      ChargedAgain(t, front, v) + if ChargesAgain(u, e) then v(PaymentCharge(u.payments[e.id])) else 0
  }

  lemma {:induction false} ExcessIsChargedAgain(t: Tables, events: seq<Event>, v: Valuation)
    requires Fresh(t) && NumbersAgree(t) && NoRestart(events)
    ensures RunExcess(t, events, v) == ChargedAgain(t, events, v)
  {
    if events != [] {
      var front, e := events[..|events| - 1], events[|events| - 1];
      ExcessIsChargedAgain(t, front, v);
      RunKeepsMatch(t, front);
      var u := Run(t, front);
      if RetrySucceeds(u, e) {
        assert PaymentCharge(u.payments[e.id]) == BillCharge(BillAt(u, LookupByPair(u, u.payments[e.id].pair).value));
      }
    }
  }

  lemma PaidRecordCounts(t: Tables, record: BillingRecord, pair: Pair)
    requires Exists(t, record) && BillAt(t, record).status == PAID && BillAt(t, record).pair == pair
    ensures Settled(t, CountOf(pair)) >= 1
  {
    var w := PaidWeight(CountOf(pair));
    match record
    case InMock(row) =>
      SumAtLeast(t.mock, w, row);
      SumNonNegative(t.demo, w);
    case InDemo(row) =>
      SumAtLeast(t.demo, w, row);
      SumNonNegative(t.mock, w);
  }

  lemma SettledNeverDrops(t: Tables, e: Event, pair: Pair)
    requires !e.Restart?
    ensures Settled(Step(t, e), CountOf(pair)) >= Settled(t, CountOf(pair))
  {
    match e
    case Pay(dto, actor, answer) =>
      if Pays(t, dto, actor) {
        MarkPaidSettles(t, NamedRecord(t, dto).value, CountOf(pair));
      }
    case RetryPayment(id, actor, answer) =>
      if RetryDispatches(t, id, actor) && answer.Answered? {
        var payment := t.payments[id];
        var stored := RetryStored(t, id, answer);
        PaymentsDoNotMatter(t, stored);
        var found := LookupByPair(stored, payment.pair);
        if found.Some? {
          MarkPaidSettles(stored, found.value, CountOf(pair));
        }
      }
  }

  lemma {:induction false} ChargedAgainIsPaid(t: Tables, events: seq<Event>, pair: Pair)
    requires NoRestart(events)
    ensures ChargedAgain(t, events, CountOf(pair)) >= 0
    ensures ChargedAgain(t, events, CountOf(pair)) > 0 ==> Settled(Run(t, events), CountOf(pair)) >= 1
  {
    if events != [] {
      var front, e := events[..|events| - 1], events[|events| - 1];
      var u := Run(t, front);
      ChargedAgainIsPaid(t, front, pair);
      SettledNeverDrops(u, e, pair);
      if ChargesAgain(u, e) && u.payments[e.id].pair == pair {
        PaidRecordCounts(u, LookupByPair(u, pair).value, pair);
      }
    }
  }

  /** Where numbers and pairs agree, the surplus of collected over settled money is exactly what was
      charged again, so a pair is charged at most once if and only if no retry of it succeeded after
      its bill was paid. */
  lemma SurplusIsChargedAgain(t: Tables, events: seq<Event>, pair: Pair)
    requires Fresh(t) && NumbersAgree(t) && NoRestart(events)
    ensures var u := Run(t, events);
      && Collected(u, Money()) == Settled(u, Money()) + ChargedAgain(t, events, Money())
      && Collected(u, CountOf(pair)) == Settled(u, CountOf(pair)) + ChargedAgain(t, events, CountOf(pair))
      && (Collected(u, CountOf(pair)) <= 1 <==> ChargedAgain(t, events, CountOf(pair)) == 0)
  {
    MoneyIsConserved(t, events, Money());
    MoneyIsConserved(t, events, CountOf(pair));
    FreshIsEmpty(t, Money());
    FreshIsEmpty(t, CountOf(pair));
    ExcessIsChargedAgain(t, events, Money());
    ExcessIsChargedAgain(t, events, CountOf(pair));
    ChargedAgainIsPaid(t, events, pair);
    RunKeepsPrimary(t, events);
    PrimaryPaidOnce(Run(t, events), pair);
  }

  // ---- agreement of numbers and pairs is what "at most once" needs

  /** Rows as the seeder writes them: no empty text. */
  ghost predicate NonemptyTexts(bills: seq<Bill>) {
    forall i | 0 <= i < |bills| ::
      bills[i].billNumber != "" && bills[i].pair.billerCode != "" && bills[i].pair.consumerNumber != ""
  }

  /** The payment of a bill by a customer, accepted by the network. */
  function Paying(number: string, pair: Pair, amount: AmountField, key: string): Event {
    Pay(CreatePaymentDto(number, pair.billerCode, pair.consumerNumber, amount, key),
        Actor("customer", [], []), Answered(SUCCESS, None))
  }

  lemma PayingPays(t: Tables, number: string, pair: Pair, amount: AmountField, key: string, record: BillingRecord)
    requires RowByKey(t.payments, key).None?
    requires number == "" ==> pair.billerCode != "" && pair.consumerNumber != "" && amount.Paise?
    requires (if number != "" then LookupByNumber(t, number) else LookupByPair(t, pair)) == Some(record)
    requires Exists(t, record) && BillAt(t, record).status == UNPAID
    requires amount.NoAmount? || amount == Paise(BillAt(t, record).amount)
    ensures var u := Step(t, Paying(number, pair, amount, key));
      && SameBilling(t, u) && Exists(u, record)
      && |u.payments| == |t.payments| + 1 && u.payments[..|t.payments|] == t.payments
      && u.payments[|t.payments|].pair == BillAt(t, record).pair
      && u.payments[|t.payments|].idempotencyKey == key
      && u.payments[|t.payments|].status.SUCCESS?
      && (forall other | Exists(t, other) && other != record :: BillAt(u, other) == BillAt(t, other))
  {
    var e := Paying(number, pair, amount, key);
    assert DtoPair(e.dto) == pair;
    assert NamedRecord(t, e.dto) == Some(record);
    assert PayRefusal(t, e.dto).None?;
    StepIsLocal(t, e);
  }

  /** When a bill number names a record its pair does not lead to, two payments without any retry
      charge that pair twice: the agreement of numbers and pairs cannot be dropped. */
  lemma DisagreementPaysTwice(t: Tables, number: string)
    requires Fresh(t) && NonemptyTexts(t.mock) && NonemptyTexts(t.demo)
    requires number != "" && LookupByNumber(t, number).Some?
    requires LookupByPair(t, BillAt(t, LookupByNumber(t, number).value).pair) != LookupByNumber(t, number)
    ensures var pair := BillAt(t, LookupByNumber(t, number).value).pair;
      exists events :: OnlyPays(events) && Collected(Run(t, events), CountOf(pair)) == 2
  {
    var named := LookupByNumber(t, number).value;
    var pair := BillAt(t, named).pair;
    var primary := LookupByPair(t, pair).value;
    var first := Paying(number, pair, NoAmount, "a");
    var second := Paying("", pair, Paise(BillAt(t, primary).amount), "b");
    PayTwoRecords(t, number, pair, named, primary, first, second);
    assert OnlyPays([first, second]);
  }

  lemma PayTwoRecords(
      t: Tables, number: string, pair: Pair, named: BillingRecord, primary: BillingRecord, first: Event, second: Event)
    requires Fresh(t) && number != "" && pair.billerCode != "" && pair.consumerNumber != ""
    requires LookupByNumber(t, number) == Some(named) && BillAt(t, named).pair == pair
    requires LookupByPair(t, pair) == Some(primary) && primary != named
    requires first == Paying(number, pair, NoAmount, "a")
    requires second == Paying("", pair, Paise(BillAt(t, primary).amount), "b")
    ensures Collected(Run(t, [first, second]), CountOf(pair)) == 2
  {
    PayingPays(t, number, pair, NoAmount, "a", named);
    var u := Step(t, first);
    SameBillingSameLookups(t, u);
    assert BillAt(u, primary) == BillAt(t, primary);
    assert RowByKey(u.payments, "b").None? by {
      assert "a" != "b";
    }
    PayingPays(u, "", pair, Paise(BillAt(t, primary).amount), "b", primary);
    RunOfTwo(t, first, second);
    TwoSuccesses(Step(u, second), pair);
  }

  lemma TwoSuccesses(t: Tables, pair: Pair)
    requires |t.payments| == 2
    requires forall i | 0 <= i < 2 :: t.payments[i].pair == pair && t.payments[i].status.SUCCESS?
    ensures Collected(t, CountOf(pair)) == 2
  {
    var w := SuccessWeight(CountOf(pair));
    assert t.payments == [] + [t.payments[0]] + [t.payments[1]];
    SumAppend([], t.payments[0], w);
    SumAppend([t.payments[0]], t.payments[1], w);
  }

  /** At most one SUCCESS payment per pair in every run of payments, exactly for the tables in which
      numbers and pairs agree. */
  lemma PaidOnceIffNumbersAgree(t: Tables)
    requires Fresh(t) && NonemptyTexts(t.mock) && NonemptyTexts(t.demo)
    ensures NumbersAgree(t) <==>
      forall events, pair :: OnlyPays(events) ==> Collected(Run(t, events), CountOf(pair)) <= 1
  {
    if NumbersAgree(t) {
      forall events, pair | OnlyPays(events)
        ensures Collected(Run(t, events), CountOf(pair)) <= 1
      {
        AtMostOnePaymentPlusRetries(t, events, pair);
      }
    } else {
      var number :| number != "" && LookupByNumber(t, number).Some? &&
        LookupByPair(t, BillAt(t, LookupByNumber(t, number).value).pair) != LookupByNumber(t, number);
      DisagreementPaysTwice(t, number);
    }
  }

  /** A payment of the bill that the network leaves pending. */
  function PendingPay(bill: Bill): Event {
    Pay(CreatePaymentDto(bill.billNumber, "", "", NoAmount, "a"), Actor("customer", [], []), Answered(PENDING, None))
  }

  lemma PendingLeavesUnpaid(bill: Bill)
    requires bill.status == UNPAID && bill.billNumber != ""
    ensures var u := Step(Tables([bill], [], [], []), PendingPay(bill));
      && u.mock == [bill] && u.demo == [] && |u.payments| == 1 && u.payments[0].pair == bill.pair
      && u.payments[0].status.PENDING? && u.payments[0].idempotencyKey == "a"
          && u.payments[0].keycloakUserId == "customer"
  {
    var t, e := Tables([bill], [], [], []), PendingPay(bill);
    assert RowByNumber(t.mock, bill.billNumber) == Some(0);
    PendingStores(t, e.dto, e.actor);
  }

  lemma PendingThenPaid(bill: Bill)
    requires bill.status == UNPAID && bill.billNumber != ""
    ensures var u := Step(Step(Tables([bill], [], [], []), PendingPay(bill)),
                          Paying(bill.billNumber, bill.pair, NoAmount, "b"));
      && |u.payments| == 2 && u.payments[0].pair == u.payments[1].pair == bill.pair && u.payments[1].status.SUCCESS?
      && u.payments[0].status.PENDING? && u.payments[0].keycloakUserId == "customer"
  {
    var one := Step(Tables([bill], [], [], []), PendingPay(bill));
    PendingLeavesUnpaid(bill);
    assert RowByKey(one.payments, "b").None? by {
      assert "a" != "b";
    }
    assert RowByNumber(one.mock, bill.billNumber) == Some(0);
    PayingPays(one, bill.billNumber, bill.pair, NoAmount, "b", InMock(0));
    var two := Step(one, Paying(bill.billNumber, bill.pair, NoAmount, "b"));
    assert two.payments[0] == two.payments[..1][0] == one.payments[0];
  }

  /** A retry does not look at the bill again: one bill, two keys, and both payments succeed. */
  lemma RetryCanChargeTwice(bill: Bill)
    requires bill.status == UNPAID && bill.billNumber != ""
    ensures var t := Tables([bill], [], [], []);
      && Fresh(t) && NumbersAgree(t)
      && exists events :: NoRestart(events) && Collected(Run(t, events), CountOf(bill.pair)) == 2
  {
    OneBillAgrees(bill);
    RetriedAfterAll(bill);
    ThreeEventsPayTwice(
      Tables([bill], [], [], []), PendingPay(bill), Paying(bill.billNumber, bill.pair, NoAmount, "b"),
      RetryPayment(0, Actor("customer", [], []), Answered(SUCCESS, None)), bill.pair);
  }

  lemma ThreeEventsPayTwice(t: Tables, a: Event, b: Event, c: Event, pair: Pair)
    requires !a.Restart? && !b.Restart? && !c.Restart?
    requires var u := Step(Step(Step(t, a), b), c);
      |u.payments| == 2 && forall i | 0 <= i < 2 :: u.payments[i].pair == pair && u.payments[i].status.SUCCESS?
    ensures exists events :: NoRestart(events) && Collected(Run(t, events), CountOf(pair)) == 2
  {
    RunOfThree(t, a, b, c);
    TwoSuccesses(Run(t, [a, b, c]), pair);
    assert NoRestart([a, b, c]);
  }

  lemma OneBillAgrees(bill: Bill)
    requires bill.status == UNPAID
    ensures var t := Tables([bill], [], [], []); Fresh(t) && NumbersAgree(t)
  {
    assert RowByPair([bill], bill.pair) == Some(0);
  }

  lemma RetriedAfterAll(bill: Bill)
    requires bill.status == UNPAID && bill.billNumber != ""
    ensures var two := Step(Step(Tables([bill], [], [], []), PendingPay(bill)),
                            Paying(bill.billNumber, bill.pair, NoAmount, "b"));
      var u := Step(two, RetryPayment(0, Actor("customer", [], []), Answered(SUCCESS, None)));
      |u.payments| == 2 && forall i | 0 <= i < 2 :: u.payments[i].pair == bill.pair && u.payments[i].status.SUCCESS?
  {
    PendingThenPaid(bill);
    RetryStoresSuccess(
      Step(Step(Tables([bill], [], [], []), PendingPay(bill)), Paying(bill.billNumber, bill.pair, NoAmount, "b")),
      RetryPayment(0, Actor("customer", [], []), Answered(SUCCESS, None)));
  }

  lemma PendingStores(t: Tables, dto: CreatePaymentDto, actor: Actor)
    requires Pays(t, dto, actor)
    ensures var u := Step(t, Pay(dto, actor, Answered(PENDING, None)));
      && u.mock == t.mock && u.demo == t.demo
      && u.payments ==
           t.payments + [NewPayment(BillAt(t, NamedRecord(t, dto).value), dto, actor, Answered(PENDING, None))]
  {
  }

  lemma RetryStoresSuccess(t: Tables, e: Event)
    requires RetrySucceeds(t, e)
    ensures Step(t, e).payments == t.payments[e.id := Retried(t.payments[e.id], e.answer)]
  {
  }
}
