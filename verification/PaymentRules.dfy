/** Which requests are paid, which payments may be retried and what a receipt says, stated on the rows of
    the tables and the fields of the request (bill-payment/payment/payment.service.ts): for one call, for
    serial runs and for every interleaving. */
module PaymentRules {
  import opened Outcomes
  import opened RbacConstants
  import opened ActorClaims
  import opened BillingTables
  import opened PaymentService
  import opened PaymentRuns
  import opened PaymentRaces

  // ---- what a request asks for

  /** The bill has the number the request gives or, without a number, its biller and consumer. */
  ghost predicate Fits(dto: CreatePaymentDto, bill: Bill) {
    if dto.billNumber != "" then bill.billNumber == dto.billNumber
    else bill.pair.billerCode == dto.billerCode && bill.pair.consumerNumber == dto.consumerNumber
  }

  ghost predicate FirstFit(dto: CreatePaymentDto, bills: seq<Bill>, row: nat) {
    row < |bills| && Fits(dto, bills[row]) && forall j | 0 <= j < row :: !Fits(dto, bills[j])
  }

  ghost predicate NoFit(dto: CreatePaymentDto, bills: seq<Bill>) {
    forall j | 0 <= j < |bills| :: !Fits(dto, bills[j])
  }

  /** The first fitting row of mock_bill, or of demo_bbps_data when mock_bill has none. */
  ghost predicate Names(t: Tables, dto: CreatePaymentDto, record: BillingRecord) {
    match record
    case InMock(row) => FirstFit(dto, t.mock, row)
    case InDemo(row) => NoFit(dto, t.mock) && FirstFit(dto, t.demo, row)
  }

  ghost predicate NamesNothing(t: Tables, dto: CreatePaymentDto) {
    NoFit(dto, t.mock) && NoFit(dto, t.demo)
  }

  /** The request gives no amount, or that of the bill. */
  ghost predicate AsksFor(dto: CreatePaymentDto, amount: int) {
    match dto.amount
    case NoAmount => true
    case NotPaise => false
    case Paise(value) => value == amount
  }

  /** The request lacks what it needs to name a bill and a charge. */
  ghost predicate Lacking(dto: CreatePaymentDto) {
    dto.billNumber == "" && (dto.billerCode == "" || dto.consumerNumber == "" || dto.amount.NoAmount?)
  }

  ghost predicate NewKey(t: Tables, key: string) {
    forall i | 0 <= i < |t.payments| :: t.payments[i].idempotencyKey != key
  }

  lemma RecordIsNamed(t: Tables, dto: CreatePaymentDto)
    ensures NamedRecord(t, dto).Some? ==> Names(t, dto, NamedRecord(t, dto).value)
    ensures NamedRecord(t, dto).None? ==> NamesNothing(t, dto)
    ensures forall record :: Names(t, dto, record) ==> NamedRecord(t, dto) == Some(record)
  {
    assert DtoPair(dto) == Pair(dto.billerCode, dto.consumerNumber);
    forall record | Names(t, dto, record) ensures NamedRecord(t, dto) == Some(record) {
    }
  }

  /** The rows of one bill table with the bill of one row paid. */
  ghost predicate PaidAt(before: seq<Bill>, after: seq<Bill>, row: nat) {
    && row < |before| == |after|
    && after[row] == before[row].(status := PAID)
    && forall j | 0 <= j < |before| && j != row :: after[j] == before[j]
  }

  /** The record's bill becomes PAID, and no other bill changes. */
  ghost predicate OnlyPaid(t: Tables, u: Tables, record: BillingRecord) {
    match record
    case InMock(row) => PaidAt(t.mock, u.mock, row) && u.demo == t.demo
    case InDemo(row) => u.mock == t.mock && PaidAt(t.demo, u.demo, row)
  }

  ghost predicate SameBillTables(t: Tables, u: Tables) {
    u.mock == t.mock && u.demo == t.demo
  }

  // ---- one request

  /** The charge of the record's bill is sent once; an answer is stored with that charge, the request's key
      and the caller; and SUCCESS, only SUCCESS, pays that bill. */
  ghost predicate Charges(
      t: Tables, dto: CreatePaymentDto, actor: Actor, answer: BbpsAnswer, record: BillingRecord,
      u: Tables, reply: Result<Receipt, PaymentError>)
    requires Exists(t, record)
  {
    var bill := BillAt(t, record);
    && u.dispatched == t.dispatched + [BbpsRequest(bill.pair, bill.amount)]
    && match answer
       case Unreachable =>
         SameBillTables(t, u) && u.payments == t.payments && reply == Err(BbpsUnreachable)
       case Answered(status, referenceId) =>
         && u.payments == t.payments
              + [Payment(bill.pair, bill.amount, status, dto.idempotencyKey, actor.sub, referenceId)]
         && (if status == SUCCESS then OnlyPaid(t, u, record) else SameBillTables(t, u))
         && reply == Ok(Receipt(|t.payments|, bill.pair, bill.amount, status, referenceId, false))
  }

  /** A request with a new key, on fields. It is refused, in this order, without a caller, without what it
      needs, without a fitting bill, for a bill that is not UNPAID and for another amount than the bill's,
      and then no table changes. Otherwise it is charged. */
  lemma NewKeyIsDecided(t: Tables, dto: CreatePaymentDto, actor: Actor, answer: BbpsAnswer)
    requires NewKey(t, dto.idempotencyKey)
    ensures NamesNothing(t, dto) || exists record :: Names(t, dto, record)
    ensures var u, reply := AfterCreate(t, dto, actor, answer), CreateReply(t, dto, actor, answer);
      && (actor.sub == "" ==> u == t && reply == Err(Unauthorized))
      && (actor.sub != "" && Lacking(dto) ==> u == t && reply == Err(InvalidPaymentRequest))
      && (actor.sub != "" && !Lacking(dto) && NamesNothing(t, dto) ==> u == t && reply == Err(BillNotFound))
      && (forall record | actor.sub != "" && !Lacking(dto) && Names(t, dto, record) ::
            var bill := BillAt(t, record);
            if bill.status != UNPAID then u == t && reply == Err(BillNotPayable)
            else if !AsksFor(dto, bill.amount) then u == t && reply == Err(AmountMismatch)
            else Charges(t, dto, actor, answer, record, u, reply))
  {
    RecordIsNamed(t, dto);
    assert Complete(dto) <==> !Lacking(dto);
    assert RowByKey(t.payments, dto.idempotencyKey).None?;
  }

  /** What is sent to the network for a request was asked for by it: a caller, a bill it names that is UNPAID,
      and no other amount than the one it gives. */
  ghost predicate Orders(t: Tables, dto: CreatePaymentDto, actor: Actor, pair: Pair, amount: int) {
    && actor.sub != "" && !Lacking(dto) && AsksFor(dto, amount)
    && exists record :: Names(t, dto, record)
         && BillAt(t, record).pair == pair && BillAt(t, record).amount == amount && BillAt(t, record).status == UNPAID
  }

  /** Exactly when a request with a new key changes any table, and exactly then it reaches the network. */
  lemma PaysIffOrdered(t: Tables, dto: CreatePaymentDto, actor: Actor, answer: BbpsAnswer)
    requires NewKey(t, dto.idempotencyKey)
    ensures var u := AfterCreate(t, dto, actor, answer);
      && (u != t <==> exists pair, amount :: Orders(t, dto, actor, pair, amount))
      && (forall pair, amount ::
            u.dispatched == t.dispatched + [BbpsRequest(pair, amount)] <==> Orders(t, dto, actor, pair, amount))
  {
    NewKeyIsDecided(t, dto, actor, answer);
    RecordIsNamed(t, dto);
    var u := AfterCreate(t, dto, actor, answer);
    forall pair, amount
      ensures u.dispatched == t.dispatched + [BbpsRequest(pair, amount)] <==> Orders(t, dto, actor, pair, amount)
      ensures Orders(t, dto, actor, pair, amount) ==> u != t
    {
      OneSending(t, dto, actor, answer, pair, amount);
    }
    if u != t {
      var record := NamedRecord(t, dto).value;
      assert Names(t, dto, record);
      assert Orders(t, dto, actor, BillAt(t, record).pair, BillAt(t, record).amount);
    }
  }

  lemma OneSending(t: Tables, dto: CreatePaymentDto, actor: Actor, answer: BbpsAnswer, pair: Pair, amount: int)
    requires NewKey(t, dto.idempotencyKey)
    ensures var u := AfterCreate(t, dto, actor, answer);
      u.dispatched == t.dispatched + [BbpsRequest(pair, amount)] <==> Orders(t, dto, actor, pair, amount)
  {
    NewKeyIsDecided(t, dto, actor, answer);
    RecordIsNamed(t, dto);
    var u := AfterCreate(t, dto, actor, answer);
    if u.dispatched == t.dispatched + [BbpsRequest(pair, amount)] {
      var record := NamedRecord(t, dto).value;
      assert u.dispatched[|t.dispatched|] == BbpsRequest(BillAt(t, record).pair, BillAt(t, record).amount);
      assert Names(t, dto, record);
    }
  }

  /** A request whose key is stored, on fields: no table changes; the first row with the key is replayed for
      its owner, or anyone when it has none, if it still is the charge the request asks for. */
  lemma StoredKeyIsDecided(t: Tables, dto: CreatePaymentDto, actor: Actor, answer: BbpsAnswer, id: nat)
    requires id < |t.payments| && t.payments[id].idempotencyKey == dto.idempotencyKey
    requires forall j | 0 <= j < id :: t.payments[j].idempotencyKey != dto.idempotencyKey
    ensures AfterCreate(t, dto, actor, answer) == t
    ensures var reply, row := CreateReply(t, dto, actor, answer), t.payments[id];
      if actor.sub == "" then reply == Err(Unauthorized)
      else if Lacking(dto) then reply == Err(InvalidPaymentRequest)
      else if row.keycloakUserId != "" && row.keycloakUserId != actor.sub then reply == Err(PaymentNotFound)
      else if Repeats(t, dto, row) then
        reply == Ok(Receipt(id, row.pair, row.amount, row.status, row.bbpsReferenceId, true))
      else reply == Err(IdempotencyKeyReused)
  {
    RecordIsNamed(t, dto);
    assert Complete(dto) <==> !Lacking(dto);
    assert RowByKey(t.payments, dto.idempotencyKey) == Some(id);
    if dto.billNumber != "" {
      assert NamedRecord(t, dto) == LookupByNumber(t, dto.billNumber);
    }
  }

  /** The stored row is the charge of the bill whose number the request gives or, without a number, the pair
      and the amount the request gives. */
  ghost predicate Repeats(t: Tables, dto: CreatePaymentDto, row: Payment) {
    if dto.billNumber != "" then
      exists record :: Names(t, dto, record)
        && row.pair == BillAt(t, record).pair && row.amount == BillAt(t, record).amount
    else row.pair == Pair(dto.billerCode, dto.consumerNumber) && dto.amount == Paise(row.amount)
  }

  /** A receipt for a new payment is about the row just stored, and says SUCCESS exactly when the bill the
      request names is PAID afterwards. */
  lemma ReceiptsAreTrue(t: Tables, dto: CreatePaymentDto, actor: Actor, answer: BbpsAnswer, record: BillingRecord)
    requires NewKey(t, dto.idempotencyKey) && Names(t, dto, record)
    requires CreateReply(t, dto, actor, answer).Ok?
    ensures var u, receipt := AfterCreate(t, dto, actor, answer), CreateReply(t, dto, actor, answer).value;
      && receipt.paymentId == |t.payments| == |u.payments| - 1
      && var row := u.payments[receipt.paymentId];
         && receipt == Receipt(|t.payments|, row.pair, row.amount, row.status, row.bbpsReferenceId, false)
         && row.idempotencyKey == dto.idempotencyKey && row.keycloakUserId == actor.sub
         && Exists(u, record) && (receipt.status == SUCCESS <==> BillAt(u, record).status == PAID)
  {
    NewKeyIsDecided(t, dto, actor, answer);
  }

  // ---- one retry

  ghost predicate Owns(actor: Actor, row: Payment) {
    actor.sub != "" && row.keycloakUserId == actor.sub
  }

  /** The first bill of the pair, of mock_bill before demo_bbps_data, becomes PAID; without one, no bill
      changes. */
  ghost predicate PaysPair(t: Tables, u: Tables, pair: Pair) {
    var dto := CreatePaymentDto("", pair.billerCode, pair.consumerNumber, NoAmount, "");
    && (NamesNothing(t, dto) ==> SameBillTables(t, u))
    && forall record :: Names(t, dto, record) ==> OnlyPaid(t, u, record)
  }

  /** The owner, or a bank administrator, by the claimed roles. */
  ghost predicate MayRetry(actor: Actor, row: Payment) {
    ClaimsBankAdmin(actor) || Owns(actor, row)
  }

  /** The charge is sent again; an answer replaces the row's status, and its reference when it has one; and
      SUCCESS pays the first bill of the pair. */
  ghost predicate ChargesAgain(
      t: Tables, id: nat, answer: BbpsAnswer, u: Tables, reply: Result<(), PaymentError>)
    requires id < |t.payments|
  {
    var row := t.payments[id];
    && u.dispatched == t.dispatched + [BbpsRequest(row.pair, row.amount)]
    && match answer
       case Unreachable =>
         SameBillTables(t, u) && u.payments == t.payments && reply == Err(BbpsUnreachable)
       case Answered(status, referenceId) =>
         && u.payments == t.payments[id :=
              Payment(row.pair, row.amount, status, row.idempotencyKey, row.keycloakUserId,
                      if referenceId.Some? then referenceId else row.bbpsReferenceId)]
         && (if status == SUCCESS then PaysPair(t, u, row.pair) else SameBillTables(t, u))
         && reply == Ok(())
  }

  /** A retry, on the row and the caller. A missing row, a caller without a sub and a caller who neither owns
      the row nor reads for the bank are refused, and a successful row is left alone: no table changes.
      Otherwise the charge is sent again. */
  lemma RetryIsDecided(t: Tables, id: nat, actor: Actor, answer: BbpsAnswer)
    ensures var u, reply := AfterRetry(t, id, actor, answer), RetryReply(t, id, actor, answer);
      if id >= |t.payments| then u == t && reply == Err(PaymentNotFound)
      else if !MayRetry(actor, t.payments[id]) then
        u == t && reply == Err(if actor.sub == "" then Unauthorized else PaymentNotFound)
      else if t.payments[id].status == SUCCESS then u == t && reply == Ok(())
      else ChargesAgain(t, id, answer, u, reply)
  {
    ChecksAreByClaims(actor, "");
    if id < |t.payments| && RetryDispatches(t, id, actor) && answer.Answered? {
      var pair := t.payments[id].pair;
      RecordIsNamed(t, CreatePaymentDto("", pair.billerCode, pair.consumerNumber, NoAmount, ""));
      SameLookup(t, RetryStored(t, id, answer), pair);
    }
  }

  lemma SameLookup(t: Tables, u: Tables, pair: Pair)
    requires SameBillTables(t, u)
    ensures LookupByPair(t, pair) == LookupByPair(u, pair)
  {
  }

  /** A retry changes anything exactly when the payment exists, is not SUCCESS, and the caller owns it or
      reads for the bank; exactly then its charge is sent. */
  lemma RetriesIff(t: Tables, id: nat, actor: Actor, answer: BbpsAnswer)
    ensures var u := AfterRetry(t, id, actor, answer);
      && (u != t <==> u.dispatched != t.dispatched)
      && (u != t <==> id < |t.payments| && t.payments[id].status != SUCCESS && MayRetry(actor, t.payments[id]))
  {
    RetryIsDecided(t, id, actor, answer);
  }

  // ---- serial runs

  /** The event may send this charge: an order under a new key, or a retry of an unsuccessful payment by
      someone who may. */
  ghost predicate Due(t: Tables, e: Event, pair: Pair, amount: int) {
    match e
    case Pay(dto, actor, _) => NewKey(t, dto.idempotencyKey) && Orders(t, dto, actor, pair, amount)
    case RetryPayment(id, actor, _) =>
      && id < |t.payments| && t.payments[id].status != SUCCESS && MayRetry(actor, t.payments[id])
      && t.payments[id].pair == pair && t.payments[id].amount == amount
    case Restart(_) => false
  }

  lemma StepSends(t: Tables, e: Event)
    ensures var u := Step(t, e);
      || u.dispatched == t.dispatched
      || exists pair, amount :: Due(t, e, pair, amount) && u.dispatched == t.dispatched + [BbpsRequest(pair, amount)]
  {
    match e
    case Pay(dto, actor, answer) =>
      if RowByKey(t.payments, dto.idempotencyKey).None? && Step(t, e) != t {
        RecordIsNamed(t, dto);
        NewKeyIsDecided(t, dto, actor, answer);
        var bill := BillAt(t, NamedRecord(t, dto).value);
        PaysIffOrdered(t, dto, actor, answer);
        assert Due(t, e, bill.pair, bill.amount);
      }
    case RetryPayment(id, actor, answer) =>
      RetryIsDecided(t, id, actor, answer);
      if Step(t, e) != t {
        assert Due(t, e, t.payments[id].pair, t.payments[id].amount);
      }
    case Restart(_) =>
  }

  /** The event sent the charge that the log has at j. */
  ghost predicate SendsAt(t: Tables, e: Event, j: nat, sent: BbpsRequest) {
    |t.dispatched| == j && Due(t, e, sent.pair, sent.amount)
  }

  /** Whatever reaches the network in a serial run, with re-seedings, was due at that moment. */
  lemma {:induction false} EverySendingIsDue(t: Tables, events: seq<Event>, j: nat)
    requires |t.dispatched| <= j < |Run(t, events).dispatched|
    ensures exists k: nat | k < |events| :: SendsAt(Run(t, events[..k]), events[k], j, Run(t, events).dispatched[j])
  {
    if events != [] {
      var last := |events| - 1;
      var front := events[..last];
      var before := Run(t, front);
      StepSends(before, events[last]);
      if j < |before.dispatched| {
        EverySendingIsDue(t, front, j);
        var k: nat :| k < |front| && SendsAt(Run(t, front[..k]), front[k], j, before.dispatched[j]);
        assert front[..k] == events[..k];
      } else {
        assert SendsAt(Run(t, events[..last]), events[last], j, Run(t, events).dispatched[j]);
      }
    }
  }

  /** The event is the request the row was stored for. */
  ghost predicate OrderedBy(t: Tables, e: Event, row: Payment) {
    && e.Pay? && NewKey(t, e.dto.idempotencyKey) && Orders(t, e.dto, e.actor, row.pair, row.amount)
    && row.idempotencyKey == e.dto.idempotencyKey && row.keycloakUserId == e.actor.sub
  }

  /** A step appends at most one row, which it orders, and changes another only if it may retry it. */
  lemma StepStores(t: Tables, e: Event)
    ensures var u := Step(t, e);
      && |t.payments| <= |u.payments| <= |t.payments| + 1
      && (|u.payments| > |t.payments| ==> OrderedBy(t, e, u.payments[|t.payments|]))
      && forall i | 0 <= i < |t.payments| && u.payments[i] != t.payments[i] ::
           e.RetryPayment? && e.id == i && MayRetry(e.actor, t.payments[i])
  {
    match e
    case Pay(dto, actor, answer) =>
      if RowByKey(t.payments, dto.idempotencyKey).None? {
        NewKeyIsDecided(t, dto, actor, answer);
        RecordIsNamed(t, dto);
        if Step(t, e) != t {
          var record := NamedRecord(t, dto).value;
          assert Names(t, dto, record);
        }
      }
    case RetryPayment(id, actor, answer) => RetryIsDecided(t, id, actor, answer);
    case Restart(_) =>
  }

  /** Every payment a serial run adds was ordered: a request named an unpaid bill with that charge, and gave
      no other amount, when the row was stored under its key and for its caller. */
  lemma {:induction false} EveryPaymentWasOrdered(t: Tables, events: seq<Event>, i: nat)
    requires |t.payments| <= i < |Run(t, events).payments|
    ensures exists k: nat | k < |events| ::
      |Run(t, events[..k]).payments| == i && OrderedBy(Run(t, events[..k]), events[k], Run(t, events).payments[i])
  {
    if events != [] {
      var last := |events| - 1;
      var front := events[..last];
      var before := Run(t, front);
      StepStores(before, events[last]);
      if i < |before.payments| {
        EveryPaymentWasOrdered(t, front, i);
        var k: nat :| k < |front|
          && |Run(t, front[..k]).payments| == i && OrderedBy(Run(t, front[..k]), front[k], before.payments[i]);
        assert front[..k] == events[..k];
        StepKeepsPayments(before, events[last]);
        assert OrderedBy(Run(t, events[..k]), events[k], Run(t, events).payments[i]);
      } else {
        assert before == Run(t, events[..last]);
      }
    }
  }

  /** A stored payment changes over a serial run, with re-seedings, only if its owner or a bank reader
      retried it. */
  lemma {:induction false} OnlyItsOwnerChangesAPayment(t: Tables, events: seq<Event>, i: nat)
    requires i < |t.payments| && i < |Run(t, events).payments| && Run(t, events).payments[i] != t.payments[i]
    ensures exists k | 0 <= k < |events| ::
      events[k].RetryPayment? && events[k].id == i && MayRetry(events[k].actor, t.payments[i])
  {
    var last := |events| - 1;
    var front := events[..last];
    var before := Run(t, front);
    PaymentsAreKept(t, front);
    StepStores(before, events[last]);
    if before.payments[i] != t.payments[i] {
      OnlyItsOwnerChangesAPayment(t, front, i);
      var k :| 0 <= k < |front| && front[k].RetryPayment? && front[k].id == i
        && MayRetry(front[k].actor, t.payments[i]);
      assert events[k] == front[k];
    } else {
      assert events[last].RetryPayment?;
    }
  }

  lemma {:induction false} PaymentsAreKept(t: Tables, events: seq<Event>)
    ensures KeepsPayments(t.payments, Run(t, events).payments)
  {
    if events != [] {
      PaymentsAreKept(t, events[..|events| - 1]);
      StepKeepsPayments(Run(t, events[..|events| - 1]), events[|events| - 1]);
    }
  }

  // ---- interleavings

  lemma FitsSameBill(dto: CreatePaymentDto, a: seq<Bill>, b: seq<Bill>)
    requires SameBills(a, b) && NoFit(dto, a)
    ensures NoFit(dto, b)
  {
    forall j | 0 <= j < |b| ensures !Fits(dto, b[j]) {
      assert SameBill(a[j], b[j]) && !Fits(dto, a[j]);
    }
  }

  /** A call that may still send has a caller and what it needs, and looks into demo_bbps_data only when
      mock_bill has no fit. */
  ghost predicate Seeks(r: Race, call: Call) {
    && (call.stage.Started? || call.stage.SeekMock? || call.stage.SeekDemo? ==>
          call.actor.sub != "" && !Lacking(call.dto))
    && (call.stage.SeekDemo? ==> NoFit(call.dto, r.t.mock))
  }

  ghost predicate AllSeek(r: Race) {
    forall c | 0 <= c < |r.calls| :: Seeks(r, r.calls[c])
  }

  lemma SoughtFits(bills: seq<Bill>, dto: CreatePaymentDto)
    ensures var row := SoughtRow(bills, dto); if row.Some? then FirstFit(dto, bills, row.value) else NoFit(dto, bills)
  {
    assert DtoPair(dto) == Pair(dto.billerCode, dto.consumerNumber);
  }

  lemma ActKeepsBilling(r: Race, a: Action)
    requires Inv(r)
    ensures SameBilling(r.t, Act(r, a).t)
  {
    if a.Advance? && CanMove(r, a.call) && r.calls[a.call].stage.Marking? {
      assert StageOk(r, a.call);
    }
  }

  /** A call keeps its request, and a sending its call and charge. */
  ghost predicate RaceContinues(r: Race, q: Race) {
    && |r.calls| <= |q.calls| && |r.log| <= |q.log|
    && (forall c | 0 <= c < |r.calls| :: q.calls[c].dto == r.calls[c].dto && q.calls[c].actor == r.calls[c].actor)
    && (forall k | 0 <= k < |r.log| :: q.log[k].(answer := None) == r.log[k].(answer := None))
  }

  lemma CheckContinues(r: Race, c: nat, record: BillingRecord, bill: Bill)
    requires c < |r.calls|
    ensures RaceContinues(r, CheckAndSend(r, c, record, bill))
  {
  }

  lemma SeekContinues(r: Race, c: nat, answer: BbpsAnswer)
    requires CanMove(r, c) && (r.calls[c].stage.SeekMock? || r.calls[c].stage.SeekDemo?)
    ensures RaceContinues(r, Move(r, c, answer))
  {
    var bills := if r.calls[c].stage.SeekMock? then r.t.mock else r.t.demo;
    var row := SoughtRow(bills, r.calls[c].dto);
    if row.Some? {
      var record := if r.calls[c].stage.SeekMock? then InMock(row.value) else InDemo(row.value);
      CheckContinues(r, c, record, bills[row.value]);
    }
  }

  lemma MoveContinues(r: Race, c: nat, answer: BbpsAnswer)
    requires CanMove(r, c)
    ensures RaceContinues(r, Move(r, c, answer))
  {
    if r.calls[c].stage.SeekMock? || r.calls[c].stage.SeekDemo? {
      SeekContinues(r, c, answer);
    }
  }

  lemma ActContinues(r: Race, a: Action)
    ensures RaceContinues(r, Act(r, a))
  {
    if a.Advance? && CanMove(r, a.call) {
      MoveContinues(r, a.call, a.answer);
    }
  }

  lemma MovedSeeks(r: Race, c: nat, answer: BbpsAnswer)
    requires AllSeek(r) && CanMove(r, c)
    ensures var q := Move(r, c, answer);
      q.calls[c].stage != r.calls[c].stage ==> Seeks(q, q.calls[c])
  {
    assert Seeks(r, r.calls[c]);
    SoughtFits(r.t.mock, r.calls[c].dto);
  }

  lemma OthersSeek(r: Race, a: Action, c: nat)
    requires Inv(r) && AllSeek(r) && c < |r.calls| && Act(r, a).calls[c] == r.calls[c]
    ensures Seeks(Act(r, a), r.calls[c])
  {
    ActKeepsBilling(r, a);
    assert Seeks(r, r.calls[c]);
    if r.calls[c].stage.SeekDemo? {
      FitsSameBill(r.calls[c].dto, r.t.mock, Act(r, a).t.mock);
    }
  }

  /** An action touches the stage of one call. */
  lemma ActIsOfOneCall(r: Race, a: Action, c: nat)
    requires c < |r.calls| && Act(r, a).calls[c] != r.calls[c]
    ensures !a.Begin? && a.call == c
  {
  }

  lemma ActSeeks(r: Race, a: Action)
    requires Inv(r) && AllSeek(r)
    ensures AllSeek(Act(r, a))
  {
    var q := Act(r, a);
    ActContinues(r, a);
    forall c: nat | c < |q.calls| ensures Seeks(q, q.calls[c]) {
      if c < |r.calls| && q.calls[c] == r.calls[c] {
        OthersSeek(r, a, c);
      } else if c < |r.calls| {
        ActIsOfOneCall(r, a, c);
        if a.Advance? {
          MovedSeeks(r, c, a.answer);
        }
      }
    }
  }

  lemma {:induction false} EveryCallSeeks(t: Tables, actions: seq<Action>)
    requires Fresh(t)
    ensures AllSeek(RunRace(Idle(t), actions))
  {
    if actions != [] {
      EveryInterleavingKeeps(t, actions[..|actions| - 1]);
      EveryCallSeeks(t, actions[..|actions| - 1]);
      ActSeeks(RunRace(Idle(t), actions[..|actions| - 1]), actions[|actions| - 1]);
    }
  }

  /** The call ordered the charge of its sending in the tables as they were. */
  ghost predicate SendingOrdered(t: Tables, call: Call, sending: Sending) {
    && Orders(t, call.dto, call.actor, sending.pair, sending.amount)
    && sending.key == call.dto.idempotencyKey && sending.owner == call.actor.sub
  }

  lemma CheckedIsOrdered(r: Race, c: nat, record: BillingRecord)
    requires c < |r.calls| && Names(r.t, r.calls[c].dto, record)
    requires r.calls[c].actor.sub != "" && !Lacking(r.calls[c].dto)
    ensures var q := CheckAndSend(r, c, record, BillAt(r.t, record));
      || q.log == r.log
      || (|q.log| == |r.log| + 1 && q.log[|r.log|].call == c && SendingOrdered(r.t, r.calls[c], q.log[|r.log|]))
  {
  }

  lemma ActSends(r: Race, a: Action)
    requires AllSeek(r) && |Act(r, a).log| != |r.log|
    ensures var q := Act(r, a);
      && |q.log| == |r.log| + 1 && q.log[|r.log|].call < |r.calls|
      && SendingOrdered(r.t, r.calls[q.log[|r.log|].call], q.log[|r.log|])
  {
    var c := a.call;
    assert Seeks(r, r.calls[c]);
    SoughtFits(r.t.mock, r.calls[c].dto);
    SoughtFits(r.t.demo, r.calls[c].dto);
    if r.calls[c].stage.SeekMock? {
      CheckedIsOrdered(r, c, InMock(SoughtRow(r.t.mock, r.calls[c].dto).value));
    } else {
      CheckedIsOrdered(r, c, InDemo(SoughtRow(r.t.demo, r.calls[c].dto).value));
    }
  }

  /** In every interleaving, whatever reached the network was ordered by its call at that moment. */
  lemma {:induction false} EveryRaceSendingWasOrdered(t: Tables, actions: seq<Action>, k: nat)
    requires Fresh(t) && k < |RunRace(Idle(t), actions).log|
    ensures var r := RunRace(Idle(t), actions);
      && r.log[k].call < |r.calls|
      && exists m: nat | m < |actions| ::
           var before := RunRace(Idle(t), actions[..m]);
           |before.log| == k && SendingOrdered(before.t, r.calls[r.log[k].call], r.log[k])
  {
    if actions != [] {
      var last := |actions| - 1;
      var front := actions[..last];
      var before := RunRace(Idle(t), front);
      var r := RunRace(Idle(t), actions);
      ActContinues(before, actions[last]);
      if k < |before.log| {
        EveryRaceSendingWasOrdered(t, front, k);
        var m: nat :| m < |front| && |RunRace(Idle(t), front[..m]).log| == k
          && SendingOrdered(RunRace(Idle(t), front[..m]).t, before.calls[before.log[k].call], before.log[k]);
        assert front[..m] == actions[..m];
        assert r.log[k].(answer := None) == before.log[k].(answer := None);
        assert SendingOrdered(RunRace(Idle(t), actions[..m]).t, r.calls[r.log[k].call], r.log[k]);
      } else {
        EveryCallSeeks(t, front);
        ActSends(before, actions[last]);
        assert before == RunRace(Idle(t), actions[..last]);
      }
    }
  }

  /** In every interleaving each payment row carries the charge of an unpaid bill that the request of its key
      and owner named, and no other amount than the one that request gave. */
  lemma EveryRacePaymentWasOrdered(t: Tables, actions: seq<Action>, i: nat)
    requires Fresh(t) && i < |RunRace(Idle(t), actions).t.payments|
    ensures var r := RunRace(Idle(t), actions); var row := r.t.payments[i];
      exists m: nat, c: nat | m < |actions| && c < |r.calls| ::
        && Orders(RunRace(Idle(t), actions[..m]).t, r.calls[c].dto, r.calls[c].actor, row.pair, row.amount)
        && row.idempotencyKey == r.calls[c].dto.idempotencyKey && row.keycloakUserId == r.calls[c].actor.sub
  {
    var r := RunRace(Idle(t), actions);
    EveryInterleavingKeeps(t, actions);
    var k := r.origin[i];
    assert RowMatches(r.t.payments[i], r.log[k]);
    EveryRaceSendingWasOrdered(t, actions, k);
    var m: nat :| m < |actions| && |RunRace(Idle(t), actions[..m]).log| == k
      && SendingOrdered(RunRace(Idle(t), actions[..m]).t, r.calls[r.log[k].call], r.log[k]);
    assert Orders(RunRace(Idle(t), actions[..m]).t, r.calls[r.log[k].call].dto, r.calls[r.log[k].call].actor,
                  r.t.payments[i].pair, r.t.payments[i].amount);
  }

  // ---- receipts in interleavings

  /** The receipt is about the row, which was stored under the request's key. */
  ghost predicate ReceiptOf(payments: seq<Payment>, dto: CreatePaymentDto, receipt: Receipt) {
    && receipt.paymentId < |payments|
    && var row := payments[receipt.paymentId];
       && receipt.pair == row.pair && receipt.amount == row.amount
       && receipt.status == row.status && receipt.bbpsReferenceId == row.bbpsReferenceId
       && row.idempotencyKey == dto.idempotencyKey
  }

  ghost predicate StageTells(payments: seq<Payment>, call: Call) {
    match call.stage
    case ReplayMock(id, existing) =>
      id < |payments| && payments[id] == existing && existing.idempotencyKey == call.dto.idempotencyKey
    case ReplayDemo(id, existing) =>
      id < |payments| && payments[id] == existing && existing.idempotencyKey == call.dto.idempotencyKey
    case Marking(_, _, _, id) => id < |payments| && payments[id].idempotencyKey == call.dto.idempotencyKey
    case Returned(reply, _) => reply.Ok? ==> ReceiptOf(payments, call.dto, reply.value)
    case _ => true
  }

  ghost predicate AllTell(r: Race) {
    forall c | 0 <= c < |r.calls| :: StageTells(r.t.payments, r.calls[c])
  }

  lemma MovedTells(r: Race, c: nat, answer: BbpsAnswer)
    requires AllTell(r) && CanMove(r, c)
    ensures StageTells(Move(r, c, answer).t.payments, Move(r, c, answer).calls[c])
  {
    assert StageTells(r.t.payments, r.calls[c]);
  }

  lemma ActAppends(r: Race, a: Action)
    ensures r.t.payments <= Act(r, a).t.payments
  {
  }

  lemma OthersTell(payments: seq<Payment>, more: seq<Payment>, call: Call)
    requires payments <= more && StageTells(payments, call)
    ensures StageTells(more, call)
  {
  }

  lemma ActTells(r: Race, a: Action)
    requires AllTell(r)
    ensures AllTell(Act(r, a))
  {
    var q := Act(r, a);
    ActContinues(r, a);
    ActAppends(r, a);
    forall c: nat | c < |q.calls| ensures StageTells(q.t.payments, q.calls[c]) {
      if c < |r.calls| && q.calls[c] == r.calls[c] {
        OthersTell(r.t.payments, q.t.payments, r.calls[c]);
      } else if c < |r.calls| {
        ActIsOfOneCall(r, a, c);
        if a.Advance? {
          MovedTells(r, c, a.answer);
        }
      }
    }
  }

  /** In every interleaving each receipt, new or replayed, is the row stored under the request's key. */
  lemma {:induction false} EveryRaceReceiptIsTrue(t: Tables, actions: seq<Action>)
    ensures AllTell(RunRace(Idle(t), actions))
  {
    if actions != [] {
      EveryRaceReceiptIsTrue(t, actions[..|actions| - 1]);
      ActTells(RunRace(Idle(t), actions[..|actions| - 1]), actions[|actions| - 1]);
    }
  }
}
