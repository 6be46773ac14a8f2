/** Paying a bill and retrying a payment (bill-payment/payment/payment.service.ts), with the ownership
    checks of bill-payment/common/bbps-access.util.ts. */
module PaymentService {
  import opened Outcomes
  import opened BillingTables
  import opened RbacConstants

  /** An amount field: missing, a text that denotes no whole number of paise, or paise. */
  datatype AmountField = NoAmount | NotPaise | Paise(value: int)

  /** A missing text is "". */
  datatype CreatePaymentDto = CreatePaymentDto(
    billNumber: string,
    billerCode: string,
    consumerNumber: string,
    amount: AmountField,
    idempotencyKey: string)

  datatype PaymentError =
    | Unauthorized
    | InvalidPaymentRequest
    | PaymentNotFound
    | IdempotencyKeyReused
    | BillNotFound
    | BillNotPayable
    | AmountMismatch
    | BbpsUnreachable

  datatype Receipt = Receipt(
    paymentId: nat,
    pair: Pair,
    amount: int,
    status: PaymentStatus,
    bbpsReferenceId: Option<string>,
    duplicate: bool)

  predicate CanViewAllBillPayments(actor: Actor) {
    HasAny(ExtractRealmRoles(actor), BBPS_PAYMENT_BANK_READ_ROLES)
  }

  /** None when the actor may touch the payment. */
  function PaymentOwnedByActor(payment: Payment, actor: Actor): Option<PaymentError> {
    if CanViewAllBillPayments(actor) then None
    else if actor.sub == "" then Some(Unauthorized)
    else if payment.keycloakUserId == "" || payment.keycloakUserId != actor.sub then Some(PaymentNotFound)
    else None
  }

  function IdempotentPaymentOwnedByActor(payment: Payment, actor: Actor): Option<PaymentError> {
    if payment.keycloakUserId == "" then None
    else if actor.sub == "" then Some(Unauthorized)
    else if payment.keycloakUserId != actor.sub then Some(PaymentNotFound)
    else None
  }

  function DtoPair(dto: CreatePaymentDto): Pair {
    Pair(dto.billerCode, dto.consumerNumber)
  }

  predicate Complete(dto: CreatePaymentDto) {
    dto.billNumber != "" || (dto.billerCode != "" && dto.consumerNumber != "" && !dto.amount.NoAmount?)
  }

  /** The record a request names: by bill number when it has one, else by biller and consumer. */
  function NamedRecord(t: Tables, dto: CreatePaymentDto): (found: Option<BillingRecord>)
    ensures found.Some? ==> Exists(t, found.value)
  {
    if dto.billNumber != "" then LookupByNumber(t, dto.billNumber) else LookupByPair(t, DtoPair(dto))
  }

  predicate SamePaymentRequest(t: Tables, dto: CreatePaymentDto, existing: Payment) {
    if dto.billNumber != "" then
      var found := LookupByNumber(t, dto.billNumber);
      && found.Some?
      && existing.pair == BillAt(t, found.value).pair
      && existing.amount == BillAt(t, found.value).amount
    else
      existing.pair == DtoPair(dto) && dto.amount == Paise(existing.amount)
  }

  predicate AmountMatches(dto: CreatePaymentDto, bill: Bill) {
    dto.amount.NoAmount? || dto.amount == Paise(bill.amount)
  }

  /** Why a request with a new key is refused before anything reaches the payment network. */
  function PayRefusal(t: Tables, dto: CreatePaymentDto): Option<PaymentError> {
    var found := NamedRecord(t, dto);
    if found.None? then Some(BillNotFound)
    else if BillAt(t, found.value).status != UNPAID then Some(BillNotPayable)
    else if !AmountMatches(dto, BillAt(t, found.value)) then Some(AmountMismatch)
    else None
  }

  function ReceiptFor(id: nat, payment: Payment, duplicate: bool): Receipt {
    Receipt(id, payment.pair, payment.amount, payment.status, payment.bbpsReferenceId, duplicate)
  }

  function Dispatch(t: Tables, pair: Pair, amount: int): Tables {
    t.(dispatched := t.dispatched + [BbpsRequest(pair, amount)])
  }

  function NewPayment(bill: Bill, dto: CreatePaymentDto, actor: Actor, answer: BbpsAnswer): Payment
    requires answer.Answered?
  {
    Payment(bill.pair, bill.amount, answer.status, dto.idempotencyKey, actor.sub, answer.referenceId)
  }

  /** The tables after a request with a new key that is not refused. */
  function PayNew(t: Tables, dto: CreatePaymentDto, actor: Actor, answer: BbpsAnswer): Tables
    requires PayRefusal(t, dto).None?
  {
    var record := NamedRecord(t, dto).value;
    var bill := BillAt(t, record);
    var sent := Dispatch(t, bill.pair, bill.amount);
    if answer.Unreachable? then sent
    else
      var stored := sent.(payments := sent.payments + [NewPayment(bill, dto, actor, answer)]);
      if answer.status.SUCCESS? then MarkPaid(stored, record) else stored
  }

  /** A request that reaches the payment network. */
  predicate Pays(t: Tables, dto: CreatePaymentDto, actor: Actor) {
    && actor.sub != "" && Complete(dto)
    && RowByKey(t.payments, dto.idempotencyKey).None?
    && PayRefusal(t, dto).None?
  }

  function AfterCreate(t: Tables, dto: CreatePaymentDto, actor: Actor, answer: BbpsAnswer): Tables {
    if Pays(t, dto, actor) then PayNew(t, dto, actor, answer) else t
  }

  function CreateReply(t: Tables, dto: CreatePaymentDto, actor: Actor, answer: BbpsAnswer)
    : Result<Receipt, PaymentError>
  {
    if actor.sub == "" then Err(Unauthorized)
    else if !Complete(dto) then Err(InvalidPaymentRequest)
    else
      var existing := RowByKey(t.payments, dto.idempotencyKey);
      if existing.Some? then
        var payment := t.payments[existing.value];
        var refusal := IdempotentPaymentOwnedByActor(payment, actor);
        if refusal.Some? then Err(refusal.value)
        else if !SamePaymentRequest(t, dto, payment) then Err(IdempotencyKeyReused)
        else Ok(ReceiptFor(existing.value, payment, true))
      else
        var refusal := PayRefusal(t, dto);
        if refusal.Some? then Err(refusal.value)
        else if answer.Unreachable? then Err(BbpsUnreachable)
        else
          var bill := BillAt(t, NamedRecord(t, dto).value);
          Ok(ReceiptFor(|t.payments|, NewPayment(bill, dto, actor, answer), false))
  }

  /** A retry that reaches the payment network. */
  predicate RetryDispatches(t: Tables, id: nat, actor: Actor) {
    && id < |t.payments|
    && PaymentOwnedByActor(t.payments[id], actor).None?
    && !t.payments[id].status.SUCCESS?
  }

  function Retried(payment: Payment, answer: BbpsAnswer): Payment
    requires answer.Answered?
  {
    payment.(status := answer.status,
             bbpsReferenceId := if answer.referenceId.Some? then answer.referenceId else payment.bbpsReferenceId)
  }

  /** The tables after a retry has been sent, answered, and the payment saved. */
  function RetryStored(t: Tables, id: nat, answer: BbpsAnswer): Tables
    requires id < |t.payments| && answer.Answered?
  {
    Dispatch(t, t.payments[id].pair, t.payments[id].amount)
      .(payments := t.payments[id := Retried(t.payments[id], answer)])
  }

  /** The tables after a retry that is sent. */
  function RetryNew(t: Tables, id: nat, answer: BbpsAnswer): Tables
    requires id < |t.payments|
  {
    var payment := t.payments[id];
    if answer.Unreachable? then Dispatch(t, payment.pair, payment.amount)
    else
      var stored := RetryStored(t, id, answer);
      var found := LookupByPair(stored, payment.pair);
      if answer.status.SUCCESS? && found.Some? then MarkPaid(stored, found.value) else stored
  }

  function AfterRetry(t: Tables, id: nat, actor: Actor, answer: BbpsAnswer): Tables {
    if RetryDispatches(t, id, actor) then RetryNew(t, id, answer) else t
  }

  function RetryReply(t: Tables, id: nat, actor: Actor, answer: BbpsAnswer): Result<(), PaymentError> {
    if id >= |t.payments| then Err(PaymentNotFound)
    else
      var refusal := PaymentOwnedByActor(t.payments[id], actor);
      if refusal.Some? then Err(refusal.value)
      else if !t.payments[id].status.SUCCESS? && answer.Unreachable? then Err(BbpsUnreachable)
      else Ok(())
  }

  /** The repositories the service writes to. */
  class BillingStore {
    var mock: seq<Bill>
    var demo: seq<Bill>
    var payments: seq<Payment>
    var dispatched: seq<BbpsRequest>

    constructor (mock: seq<Bill>, demo: seq<Bill>)
      ensures Snapshot() == Tables(mock, demo, [], [])
    {
      this.mock, this.demo := mock, demo;
      payments, dispatched := [], [];
    }

    function Snapshot(): Tables
      reads this
    {
      Tables(mock, demo, payments, dispatched)
    }

    /** `repository.save(bill)` on the table the record was read from. */
    method SaveRecord(record: BillingRecord, bill: Bill)
      requires Exists(Snapshot(), record)
      modifies this
      ensures Snapshot() == SaveBill(old(Snapshot()), record, bill)
    {
      match record
      case InMock(row) => mock := mock[row := bill];
      case InDemo(row) => demo := demo[row := bill];
    }
  }

  class Service {
    const store: BillingStore

    constructor (store: BillingStore)
      ensures this.store == store
    {
      this.store := store;
    }

    method FindBillingRecordByBillNumber(billNumber: string) returns (found: Option<BillingRecord>)
      ensures found == LookupByNumber(store.Snapshot(), billNumber)
    {
      var row := RowByNumber(store.mock, billNumber);
      if row.Some? {
        return Some(InMock(row.value));
      }
      row := RowByNumber(store.demo, billNumber);
      if row.Some? {
        return Some(InDemo(row.value));
      }
      return None;
    }

    method FindBillingRecord(pair: Pair) returns (found: Option<BillingRecord>)
      ensures found == LookupByPair(store.Snapshot(), pair)
    {
      var row := RowByPair(store.mock, pair);
      if row.Some? {
        return Some(InMock(row.value));
      }
      row := RowByPair(store.demo, pair);
      if row.Some? {
        return Some(InDemo(row.value));
      }
      return None;
    }

    method IsSamePaymentRequest(dto: CreatePaymentDto, existing: Payment) returns (same: bool)
      ensures same == SamePaymentRequest(store.Snapshot(), dto, existing)
    {
      if dto.billNumber != "" {
        var found := FindBillingRecordByBillNumber(dto.billNumber);
        if found.None? {
          return false;
        }
        var bill := BillAt(store.Snapshot(), found.value);
        return existing.pair == bill.pair && existing.amount == bill.amount;
      }
      return existing.pair == DtoPair(dto) && dto.amount == Paise(existing.amount);
    }

    /** `answer` is what the payment network does if this call reaches it. */
    method Create(dto: CreatePaymentDto, actor: Actor, answer: BbpsAnswer)
      returns (reply: Result<Receipt, PaymentError>)
      modifies store
      ensures store.Snapshot() == AfterCreate(old(store.Snapshot()), dto, actor, answer)
      ensures reply == CreateReply(old(store.Snapshot()), dto, actor, answer)
    {
      if actor.sub == "" {
        return Err(Unauthorized);
      }
      if dto.billNumber == ""
         && (dto.billerCode == "" || dto.consumerNumber == "" || dto.amount.NoAmount?) {
        return Err(InvalidPaymentRequest);
      }
      var existing := RowByKey(store.payments, dto.idempotencyKey);
      if existing.Some? {
        var payment := store.payments[existing.value];
        var refusal := IdempotentPaymentOwnedByActor(payment, actor);
        if refusal.Some? {
          return Err(refusal.value);
        }
        var same := IsSamePaymentRequest(dto, payment);
        if !same {
          return Err(IdempotencyKeyReused);
        }
        return Ok(ReceiptFor(existing.value, payment, true));
      }

      var found: Option<BillingRecord>;
      if dto.billNumber != "" {
        found := FindBillingRecordByBillNumber(dto.billNumber);
      } else {
        found := FindBillingRecord(DtoPair(dto));
      }
      if found.None? {
        return Err(BillNotFound);
      }
      var bill := BillAt(store.Snapshot(), found.value);
      if bill.status != UNPAID {
        return Err(BillNotPayable);
      }
      var requestedAmount := if dto.amount.NoAmount? then Paise(bill.amount) else dto.amount;
      if requestedAmount != Paise(bill.amount) {
        return Err(AmountMismatch);
      }

      store.dispatched := store.dispatched + [BbpsRequest(bill.pair, bill.amount)];
      if answer.Unreachable? {
        return Err(BbpsUnreachable);
      }

      var payment := Payment(
        bill.pair, bill.amount, answer.status, dto.idempotencyKey, actor.sub, answer.referenceId);
      var id := |store.payments|;
      store.payments := store.payments + [payment];

      if answer.status.SUCCESS? {
        bill := bill.(status := PAID);
        store.SaveRecord(found.value, bill);
      }
      return Ok(ReceiptFor(id, payment, false));
    }

    method PayViaBbps(id: nat, actor: Actor, answer: BbpsAnswer) returns (reply: Result<(), PaymentError>)
      modifies store
      ensures store.Snapshot() == AfterRetry(old(store.Snapshot()), id, actor, answer)
      ensures reply == RetryReply(old(store.Snapshot()), id, actor, answer)
    {
      if id >= |store.payments| {
        return Err(PaymentNotFound);
      }
      var payment := store.payments[id];
      var refusal := PaymentOwnedByActor(payment, actor);
      if refusal.Some? {
        return Err(refusal.value);
      }
      if payment.status == SUCCESS {
        return Ok(());
      }

      store.dispatched := store.dispatched + [BbpsRequest(payment.pair, payment.amount)];
      if answer.Unreachable? {
        return Err(BbpsUnreachable);
      }

      payment := payment.(status := answer.status);
      if answer.referenceId.Some? {
        payment := payment.(bbpsReferenceId := answer.referenceId);
      }
      store.payments := store.payments[id := payment];

      if answer.status == SUCCESS {
        var found := FindBillingRecord(payment.pair);
        if found.Some? {
          var bill := BillAt(store.Snapshot(), found.value);
          store.SaveRecord(found.value, bill.(status := PAID));
        }
      }
      return Ok(());
    }
  }
}
