/** The billing tables of the bill-payment module and their lookups. Amounts are whole paise. A row of
    the payment table is identified by its position: payments are never deleted. */
module BillingTables {
  import opened Outcomes

  datatype Pair = Pair(billerCode: string, consumerNumber: string)

  datatype BillStatus = UNPAID | PAID | OtherStatus(text: string)

  datatype Bill = Bill(pair: Pair, billNumber: string, amount: int, status: BillStatus)

  datatype PaymentStatus = SUCCESS | FAILED | PENDING | TIMEOUT

  /** keycloakUserId is "" for a row without an owner. */
  datatype Payment = Payment(
    pair: Pair,
    amount: int,
    status: PaymentStatus,
    idempotencyKey: string,
    keycloakUserId: string,
    bbpsReferenceId: Option<string>)

  datatype BbpsRequest = BbpsRequest(pair: Pair, amount: int)

  /** What the payment network may do with a request. */
  datatype BbpsAnswer = Answered(status: PaymentStatus, referenceId: Option<string>) | Unreachable

  /** mock_bill, demo_bbps_data, bill_payment, and every request handed to the payment network. */
  datatype Tables = Tables(mock: seq<Bill>, demo: seq<Bill>, payments: seq<Payment>, dispatched: seq<BbpsRequest>)

  datatype BillingRecord = InMock(row: nat) | InDemo(row: nat)

  function RowByNumber(bills: seq<Bill>, number: string): (row: Option<nat>)
    ensures row.Some? ==>
      && row.value < |bills| && bills[row.value].billNumber == number
      && forall j | 0 <= j < row.value :: bills[j].billNumber != number
    ensures row.None? ==> forall j | 0 <= j < |bills| :: bills[j].billNumber != number
  {
    if bills == [] then None
    else
      var last := |bills| - 1;
      var earlier := RowByNumber(bills[..last], number);
      if earlier.Some? then earlier
      else if bills[last].billNumber == number then Some(last) else None
  }

  function RowByPair(bills: seq<Bill>, pair: Pair): (row: Option<nat>)
    ensures row.Some? ==>
      && row.value < |bills| && bills[row.value].pair == pair
      && forall j | 0 <= j < row.value :: bills[j].pair != pair
    ensures row.None? ==> forall j | 0 <= j < |bills| :: bills[j].pair != pair
  {
    if bills == [] then None
    else
      var last := |bills| - 1;
      var earlier := RowByPair(bills[..last], pair);
      if earlier.Some? then earlier
      else if bills[last].pair == pair then Some(last) else None
  }

  function RowByKey(payments: seq<Payment>, key: string): (row: Option<nat>)
    ensures row.Some? ==>
      && row.value < |payments| && payments[row.value].idempotencyKey == key
      && forall j | 0 <= j < row.value :: payments[j].idempotencyKey != key
    ensures row.None? ==> forall j | 0 <= j < |payments| :: payments[j].idempotencyKey != key
  {
    if payments == [] then None
    else
      var last := |payments| - 1;
      var earlier := RowByKey(payments[..last], key);
      if earlier.Some? then earlier
      else if payments[last].idempotencyKey == key then Some(last) else None
  }

  /** mock_bill shadows demo_bbps_data in both lookups. */
  function LookupByNumber(t: Tables, number: string): (found: Option<BillingRecord>)
    ensures found.Some? ==> Exists(t, found.value) && BillAt(t, found.value).billNumber == number
  {
    match RowByNumber(t.mock, number)
    case Some(row) => Some(InMock(row))
    case None =>
      match RowByNumber(t.demo, number)
      case Some(row) => Some(InDemo(row))
      case None => None
  }

  function LookupByPair(t: Tables, pair: Pair): (found: Option<BillingRecord>)
    ensures found.Some? ==> Exists(t, found.value) && BillAt(t, found.value).pair == pair
  {
    match RowByPair(t.mock, pair)
    case Some(row) => Some(InMock(row))
    case None =>
      match RowByPair(t.demo, pair)
      case Some(row) => Some(InDemo(row))
      case None => None
  }

  predicate Exists(t: Tables, record: BillingRecord) {
    match record
    case InMock(row) => row < |t.mock|
    case InDemo(row) => row < |t.demo|
  }

  function BillAt(t: Tables, record: BillingRecord): Bill
    requires Exists(t, record)
  {
    match record
    case InMock(row) => t.mock[row]
    case InDemo(row) => t.demo[row]
  }

  function SaveBill(t: Tables, record: BillingRecord, bill: Bill): Tables
    requires Exists(t, record)
  {
    match record
    case InMock(row) => t.(mock := t.mock[row := bill])
    case InDemo(row) => t.(demo := t.demo[row := bill])
  }

  function MarkPaid(t: Tables, record: BillingRecord): Tables
    requires Exists(t, record)
  {
    SaveBill(t, record, BillAt(t, record).(status := PAID))
  }

  /** The unique index of both bill tables. */
  ghost predicate UniquePairs(bills: seq<Bill>) {
    forall i, j | 0 <= i < j < |bills| :: bills[i].pair != bills[j].pair
  }

  /** The same row with another status. */
  ghost predicate SameBill(a: Bill, b: Bill) {
    a.(status := PAID) == b.(status := PAID)
  }

  ghost predicate SameBills(a: seq<Bill>, b: seq<Bill>) {
    |a| == |b| && forall i | 0 <= i < |a| :: SameBill(a[i], b[i])
  }

  /** Only statuses differ: both lookups reach the same records, whose charge is the same. */
  ghost predicate SameBilling(t: Tables, u: Tables) {
    SameBills(t.mock, u.mock) && SameBills(t.demo, u.demo)
  }

  lemma SameBillsSameRows(a: seq<Bill>, b: seq<Bill>)
    requires SameBills(a, b)
    ensures forall number :: RowByNumber(a, number) == RowByNumber(b, number)
    ensures forall pair :: RowByPair(a, pair) == RowByPair(b, pair)
  {
    forall i | 0 <= i < |a|
      ensures a[i].pair == b[i].pair && a[i].billNumber == b[i].billNumber
    {
      assert SameBill(a[i], b[i]);
    }
    forall number: string
      ensures RowByNumber(a, number) == RowByNumber(b, number)
    {
      var x, y := RowByNumber(a, number), RowByNumber(b, number);
      if x.Some? { assert b[x.value].billNumber == number; }
      if y.Some? { assert a[y.value].billNumber == number; }
    }
    forall pair: Pair
      ensures RowByPair(a, pair) == RowByPair(b, pair)
    {
      var x, y := RowByPair(a, pair), RowByPair(b, pair);
      if x.Some? { assert b[x.value].pair == pair; }
      if y.Some? { assert a[y.value].pair == pair; }
    }
  }

  lemma SameBillingSameLookups(t: Tables, u: Tables)
    requires SameBilling(t, u)
    ensures forall number :: LookupByNumber(t, number) == LookupByNumber(u, number)
    ensures forall pair :: LookupByPair(t, pair) == LookupByPair(u, pair)
  {
    SameBillsSameRows(t.mock, u.mock);
    SameBillsSameRows(t.demo, u.demo);
  }
}
