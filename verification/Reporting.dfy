/** Transaction reports (admin/reporting/reporting.service.ts). Amounts are in paise. */
module Reporting {
  import opened Outcomes
  import opened Sequences
  import opened Sums
  import Texts

  datatype Status = SUCCESS | FAILED | PENDING

  datatype Kind = CREDIT | DEBIT

  /** A text read as a date; comparisons with an unreadable one are false. */
  datatype Date = Unreadable | Instant(ms: int)

  datatype Transaction = Transaction(
    id: string, channel: string, senderCif: string, amount: int, status: Status, kind: Kind, branch: string,
    createdAt: Date)

  /** Absent and empty filters: None. */
  datatype Filters = Filters(
    fromDate: Option<Date>, toDate: Option<Date>, cif: Option<string>, branch: Option<string>,
    status: Option<string>, kind: Option<string>, channel: Option<string>,
    minAmount: Option<int>, maxAmount: Option<int>)

  const HIGH_VALUE_PAISE: int := 5000000

  predicate Before(a: Date, b: Date) {
    a.Instant? && b.Instant? && a.ms < b.ms
  }

  function StatusName(status: Status): string {
    match status
    case SUCCESS => "SUCCESS"
    case FAILED => "FAILED"
    case PENDING => "PENDING"
  }

  function KindName(kind: Kind): string {
    if kind.CREDIT? then "CREDIT" else "DEBIT"
  }

  predicate Matches(wanted: Option<string>, text: string) {
    wanted.Some? ==> Texts.Lower(text) == Texts.Lower(wanted.value)
  }

  predicate InWindow(f: Filters, createdAt: Date) {
    && (f.fromDate.Some? ==> !Before(createdAt, f.fromDate.value))
    && (f.toDate.Some? ==> !Before(f.toDate.value, createdAt))
  }

  /** The filters other than the dates. */
  predicate Selects(f: Filters, t: Transaction) {
    && Matches(f.cif, t.senderCif)
    && Matches(f.branch, t.branch)
    && Matches(f.status, StatusName(t.status))
    && Matches(f.kind, KindName(t.kind))
    && Matches(f.channel, t.channel)
    && (f.minAmount.Some? ==> t.amount >= f.minAmount.value)
    && (f.maxAmount.Some? ==> t.amount <= f.maxAmount.value)
  }

  predicate Passes(f: Filters, t: Transaction) {
    InWindow(f, t.createdAt) && Selects(f, t)
  }

  /** The elements that satisfy the predicate, in order. */
  function Filter<T>(items: seq<T>, p: T -> bool): (r: seq<T>)
    ensures |r| <= |items|
  {
    if items == [] then []
    else
      var last := items[|items| - 1];
      Filter(items[..|items| - 1], p) + if p(last) then [last] else []
  }

  function Passing(f: Filters): (p: Transaction -> bool)
    ensures forall t :: p(t) == Passes(f, t)
  {
    (t: Transaction) => Passes(f, t)
  }

  function Filtered(transactions: seq<Transaction>, f: Filters): seq<Transaction> {
    Filter(transactions, Passing(f))
  }

  function Amount(): (weight: Transaction -> int)
    ensures forall t :: weight(t) == t.amount
  {
    (t: Transaction) => t.amount
  }

  function HasStatus(status: Status): (p: Transaction -> bool)
    ensures forall t :: p(t) == (t.status == status)
  {
    (t: Transaction) => t.status == status
  }

  function IsOfKind(kind: Kind): (p: Transaction -> bool)
    ensures forall t :: p(t) == (t.kind == kind)
  {
    (t: Transaction) => t.kind == kind
  }

  function IsWorth(minAmount: int): (p: Transaction -> bool)
    ensures forall t :: p(t) == (t.amount >= minAmount)
  {
    (t: Transaction) => t.amount >= minAmount
  }

  function WithStatus(ts: seq<Transaction>, status: Status): seq<Transaction> {
    Filter(ts, HasStatus(status))
  }

  function OfKind(ts: seq<Transaction>, kind: Kind): seq<Transaction> {
    Filter(ts, IsOfKind(kind))
  }

  datatype Summary = Summary(
    totalTransaction: nat, successful: nat, failed: nat, pending: nat, totalCredit: int, totalDebit: int)

  function SummaryOf(ts: seq<Transaction>): Summary {
    Summary(|ts|, |WithStatus(ts, SUCCESS)|, |WithStatus(ts, FAILED)|, |WithStatus(ts, PENDING)|,
            Sum(OfKind(ts, CREDIT), Amount()), Sum(OfKind(ts, DEBIT), Amount()))
  }

  function HighValue(ts: seq<Transaction>, f: Filters): seq<Transaction> {
    Filter(ts, IsWorth(if f.minAmount.Some? then f.minAmount.value else HIGH_VALUE_PAISE))
  }

  // ---- grouping

  datatype Row = Row(key: string, transactionCount: int, totalAmount: int)

  function Branch(): (key: Transaction -> string)
    ensures forall t :: key(t) == t.branch
  {
    (t: Transaction) => t.branch
  }

  function Channel(): (key: Transaction -> string)
    ensures forall t :: key(t) == t.channel
  {
    (t: Transaction) => t.channel
  }

  predicate IsKey(ts: seq<Transaction>, key: Transaction -> string, name: string) {
    exists i | 0 <= i < |ts| :: key(ts[i]) == name
  }

  /** The keys in the order in which they first occur. */
  function FirstSeen(ts: seq<Transaction>, key: Transaction -> string): seq<string> {
    if ts == [] then []
    else
      var keys, last := FirstSeen(ts[..|ts| - 1], key), key(ts[|ts| - 1]);
      if last in keys then keys else keys + [last]
  }

  /** Each key that occurs, once. */
  lemma {:induction false} FirstSeenHasEachKey(ts: seq<Transaction>, key: Transaction -> string)
    ensures var keys := FirstSeen(ts, key);
      && Distinct(keys)
      && (forall name :: name in keys <==> IsKey(ts, key, name))
  {
    if ts != [] {
      var front, last := ts[..|ts| - 1], ts[|ts| - 1];
      FirstSeenHasEachKey(front, key);
      forall name ensures IsKey(ts, key, name) <==> IsKey(front, key, name) || name == key(last) {
        assert ts == front + [last];
      }
    }
  }

  function One(key: Transaction -> string, name: string): (weight: Transaction -> int)
    ensures forall t :: weight(t) == if key(t) == name then 1 else 0
  {
    (t: Transaction) => if key(t) == name then 1 else 0
  }

  function Share(key: Transaction -> string, name: string): (weight: Transaction -> int)
    ensures forall t :: weight(t) == if key(t) == name then t.amount else 0
  {
    (t: Transaction) => if key(t) == name then t.amount else 0
  }

  /** The number and the sum of the transactions with the key. */
  function RowOf(ts: seq<Transaction>, key: Transaction -> string, name: string): Row {
    Row(name, Sum(ts, One(key, name)), Sum(ts, Share(key, name)))
  }

  function RowsFor(ts: seq<Transaction>, key: Transaction -> string, keys: seq<string>): (rows: seq<Row>)
    ensures |rows| == |keys| && forall i | 0 <= i < |keys| :: rows[i] == RowOf(ts, key, keys[i])
  {
    seq(|keys|, i requires 0 <= i < |keys| => RowOf(ts, key, keys[i]))
  }

  function GroupRows(ts: seq<Transaction>, key: Transaction -> string): seq<Row> {
    RowsFor(ts, key, FirstSeen(ts, key))
  }

  /** The row with one more transaction. */
  function Counted(row: Row, t: Transaction): Row {
    Row(row.key, row.transactionCount + 1, row.totalAmount + t.amount)
  }

  lemma RowAfter(ts: seq<Transaction>, t: Transaction, key: Transaction -> string, name: string)
    ensures RowOf(ts + [t], key, name) ==
            if key(t) == name then Counted(RowOf(ts, key, name), t) else RowOf(ts, key, name)
  {
    SumAppend(ts, t, One(key, name));
    SumAppend(ts, t, Share(key, name));
  }

  lemma UnseenRow(ts: seq<Transaction>, key: Transaction -> string, name: string)
    requires !IsKey(ts, key, name)
    ensures RowOf(ts, key, name) == Row(name, 0, 0)
  {
    SumZero(ts, One(key, name));
    SumZero(ts, Share(key, name));
  }

  /** The map holds one entry per key seen so far, in the order of its first occurrence. */
  ghost predicate Holds(
      order: seq<string>, entries: map<string, Row>, ts: seq<Transaction>, key: Transaction -> string) {
    && order == FirstSeen(ts, key)
    && (forall name :: name in entries <==> name in order)
    && (forall name | name in order :: entries[name] == RowOf(ts, key, name))
  }

  lemma HoldsAfter(order: seq<string>, entries: map<string, Row>, ts: seq<Transaction>, t: Transaction,
                   key: Transaction -> string)
    requires Holds(order, entries, ts, key)
    ensures var name := key(t);
      if name in entries then
        Holds(order, entries[name := Counted(entries[name], t)], ts + [t], key)
      else Holds(order + [name], entries[name := Row(name, 1, t.amount)], ts + [t], key)
  {
    var name := key(t);
    assert (ts + [t])[..|ts|] == ts;
    if name !in entries {
      FirstSeenHasEachKey(ts, key);
      UnseenRow(ts, key, name);
    }
    RowAfter(ts, t, key, name);
    forall other | other != name
      ensures RowOf(ts + [t], key, other) == RowOf(ts, key, other)
    {
      RowAfter(ts, t, key, other);
    }
  }

  /** `Array.from(map.entries())` */
  function ValuesOf(order: seq<string>, entries: map<string, Row>): (rows: seq<Row>)
    requires forall name | name in order :: name in entries
    ensures |rows| == |order| && forall i | 0 <= i < |order| :: rows[i] == entries[order[i]]
  {
    seq(|order|, i requires 0 <= i < |order| => assert order[i] in order; entries[order[i]])
  }

  lemma HeldRows(order: seq<string>, entries: map<string, Row>, ts: seq<Transaction>, key: Transaction -> string)
    requires Holds(order, entries, ts, key)
    ensures ValuesOf(order, entries) == GroupRows(ts, key)
  {
    var rows := RowsFor(ts, key, order);
    forall i | 0 <= i < |order| ensures rows[i] == entries[order[i]] {
      assert order[i] in order;
    }
  }

  class ReportingService {
    const transactions: seq<Transaction>

    constructor (transactions: seq<Transaction>)
      ensures this.transactions == transactions
    {
      this.transactions := transactions;
    }

    /** An insertion-ordered map from key to entry, whose entries are updated as transactions come. */
    method Group(ts: seq<Transaction>, key: Transaction -> string) returns (data: seq<Row>)
      ensures data == GroupRows(ts, key)
    {
      var order: seq<string>, entries: map<string, Row> := [], map[];
      for i := 0 to |ts|
        invariant Holds(order, entries, ts[..i], key)
      {
        var t := ts[i];
        var name := key(t);
        HoldsAfter(order, entries, ts[..i], t, key);
        assert ts[..i] + [t] == ts[..i + 1];
        if name in entries {
          var existing := entries[name];
          entries := entries[name := Counted(existing, t)];
        } else {
          order, entries := order + [name], entries[name := Row(name, 1, t.amount)];
        }
      }
      assert ts[..|ts|] == ts;
      data := ValuesOf(order, entries);
      HeldRows(order, entries, ts, key);
    }

    method BranchWise(f: Filters) returns (data: seq<Row>)
      ensures data == GroupRows(Filtered(transactions, f), Branch())
    {
      data := Group(Filtered(transactions, f), Branch());
    }

    method ChannelWise(f: Filters) returns (data: seq<Row>)
      ensures data == GroupRows(Filtered(transactions, f), Channel())
    {
      data := Group(Filtered(transactions, f), Channel());
    }
  }
}
