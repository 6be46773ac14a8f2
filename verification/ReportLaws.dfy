/** What the reports say together: permutations, totals that agree across reports, and date windows. */
module ReportLaws {
  import opened Outcomes
  import opened Sequences
  import opened Sums
  import opened Reporting
  import Texts

  // ---- order of the input

  lemma {:induction false} SumRemove<T>(rows: seq<T>, i: nat, weight: T -> int)
    requires i < |rows|
    ensures Sum(rows, weight) == Sum(rows[..i] + rows[i + 1..], weight) + weight(rows[i])
  {
    var last := |rows| - 1;
    if i < last {
      SumRemove(rows[..last], i, weight);
      assert rows[..i] + rows[i + 1..] == (rows[..last][..i] + rows[..last][i + 1..]) + [rows[last]];
      SumAppend(rows[..last][..i] + rows[..last][i + 1..], rows[last], weight);
    } else {
      assert rows[..i] + rows[i + 1..] == rows[..last];
    }
  }

  lemma WithoutOne<T>(items: seq<T>, i: nat)
    requires i < |items|
    ensures multiset(items[..i] + items[i + 1..]) == multiset(items) - multiset{items[i]}
  {
    assert items == items[..i] + ([items[i]] + items[i + 1..]);
  }

  lemma {:induction false} SumPermuted<T>(a: seq<T>, b: seq<T>, weight: T -> int)
    requires multiset(a) == multiset(b)
    ensures Sum(a, weight) == Sum(b, weight)
    decreases |a|
  {
    if a == [] {
      assert |multiset(b)| == 0;
    } else {
      var last := |a| - 1;
      assert a[last] in multiset(b);
      var i :| 0 <= i < |b| && b[i] == a[last];
      WithoutOne(a, last);
      WithoutOne(b, i);
      SumPermuted(a[..last] + a[last + 1..], b[..i] + b[i + 1..], weight);
      SumRemove(a, last, weight);
      SumRemove(b, i, weight);
    }
  }

  lemma {:induction false} DistinctCounts<T>(items: seq<T>, x: T)
    requires Distinct(items)
    ensures multiset(items)[x] == if x in items then 1 else 0
  {
    if items != [] {
      var front, last := items[..|items| - 1], items[|items| - 1];
      assert items == front + [last];
      DistinctCounts(front, x);
    }
  }

  lemma KeysOfPermuted(a: seq<Transaction>, b: seq<Transaction>, key: Transaction -> string, name: string)
    requires multiset(a) == multiset(b) && IsKey(a, key, name)
    ensures IsKey(b, key, name)
  {
    var i :| 0 <= i < |a| && key(a[i]) == name;
    assert a[i] in multiset(b);
    var j :| 0 <= j < |b| && b[j] == a[i];
  }

  lemma RowsOfPermuted(a: seq<Transaction>, b: seq<Transaction>, key: Transaction -> string, row: Row)
    requires multiset(a) == multiset(b) && row in GroupRows(a, key)
    ensures row in GroupRows(b, key)
  {
    FirstSeenHasEachKey(a, key);
    FirstSeenHasEachKey(b, key);
    KeysOfPermuted(a, b, key, row.key);
    SumPermuted(a, b, One(key, row.key));
    SumPermuted(a, b, Share(key, row.key));
    var i :| 0 <= i < |FirstSeen(b, key)| && FirstSeen(b, key)[i] == row.key;
    assert GroupRows(b, key)[i] == row;
  }

  lemma RowsAreDistinct(ts: seq<Transaction>, key: Transaction -> string)
    ensures Distinct(GroupRows(ts, key))
  {
    FirstSeenHasEachKey(ts, key);
    var rows, keys := GroupRows(ts, key), FirstSeen(ts, key);
    forall i, j | 0 <= i < j < |rows| ensures rows[i] != rows[j] {
      assert keys[i] != keys[j];
    }
  }

  /** Reordering the transactions reorders the rows and changes nothing else. */
  lemma ReorderingPermutesRows(a: seq<Transaction>, b: seq<Transaction>, key: Transaction -> string)
    requires multiset(a) == multiset(b)
    ensures multiset(GroupRows(a, key)) == multiset(GroupRows(b, key))
  {
    RowsAreDistinct(a, key);
    RowsAreDistinct(b, key);
    forall row: Row
      ensures multiset(GroupRows(a, key))[row] == multiset(GroupRows(b, key))[row]
    {
      DistinctCounts(GroupRows(a, key), row);
      DistinctCounts(GroupRows(b, key), row);
      if row in GroupRows(a, key) {
        RowsOfPermuted(a, b, key, row);
      }
      if row in GroupRows(b, key) {
        RowsOfPermuted(b, a, key, row);
      }
    }
  }

  /** The first transaction with the key. */
  function FirstAt(ts: seq<Transaction>, key: Transaction -> string, name: string): (i: nat)
    requires IsKey(ts, key, name)
    ensures i < |ts| && key(ts[i]) == name && forall j | 0 <= j < i :: key(ts[j]) != name
  {
    if key(ts[0]) == name then 0
    else
      assert IsKey(ts[1..], key, name) by {
        var i :| 0 <= i < |ts| && key(ts[i]) == name;
        assert ts[1..][i - 1] == ts[i];
      }
      assert forall j | 1 <= j < |ts| :: ts[1..][j - 1] == ts[j];
      FirstAt(ts[1..], key, name) + 1
  }

  /** Rows come in the order in which their keys first occur. */
  lemma {:induction false} RowsInOrderOfOccurrence(ts: seq<Transaction>, key: Transaction -> string, i: nat, j: nat)
    requires i < j < |FirstSeen(ts, key)|
    ensures var keys := FirstSeen(ts, key);
      IsKey(ts, key, keys[i]) && IsKey(ts, key, keys[j]) && FirstAt(ts, key, keys[i]) < FirstAt(ts, key, keys[j])
  {
    var front, keys := ts[..|ts| - 1], FirstSeen(ts, key);
    FirstSeenHasEachKey(ts, key);
    FirstSeenHasEachKey(front, key);
    assert ts == front + [ts[|ts| - 1]];
    if j < |FirstSeen(front, key)| {
      RowsInOrderOfOccurrence(front, key, i, j);
      SameFirst(front, ts, key, keys[i]);
      SameFirst(front, ts, key, keys[j]);
    } else {
      SameFirst(front, ts, key, keys[i]);
      assert !IsKey(front, key, keys[j]);
    }
  }

  lemma SameFirst(front: seq<Transaction>, ts: seq<Transaction>, key: Transaction -> string, name: string)
    requires front <= ts && IsKey(front, key, name)
    ensures IsKey(ts, key, name) && FirstAt(ts, key, name) == FirstAt(front, key, name)
  {
    var i := FirstAt(front, key, name);
    assert key(ts[i]) == name;
  }

  // ---- totals

  function Total(): (weight: Row -> int)
    ensures forall row :: weight(row) == row.totalAmount
  {
    (row: Row) => row.totalAmount
  }

  function Count(): (weight: Row -> int)
    ensures forall row :: weight(row) == row.transactionCount
  {
    (row: Row) => row.transactionCount
  }

  /** Adding a transaction adds to the row of its key and to no other. */
  lemma {:induction false} RowsGain(ts: seq<Transaction>, t: Transaction, key: Transaction -> string, keys: seq<string>)
    requires Distinct(keys)
    ensures var share := if key(t) in keys then 1 else 0;
      && Sum(RowsFor(ts + [t], key, keys), Total()) == Sum(RowsFor(ts, key, keys), Total()) + share * t.amount
      && Sum(RowsFor(ts + [t], key, keys), Count()) == Sum(RowsFor(ts, key, keys), Count()) + share
  {
    if keys != [] {
      var front, last := keys[..|keys| - 1], keys[|keys| - 1];
      RowsGain(ts, t, key, front);
      RowAfter(ts, t, key, last);
      assert RowsFor(ts, key, keys)[..|front|] == RowsFor(ts, key, front);
      assert RowsFor(ts + [t], key, keys)[..|front|] == RowsFor(ts + [t], key, front);
      assert keys == front + [last];
    }
  }

  lemma {:induction false} NoRows(key: Transaction -> string, keys: seq<string>)
    ensures Sum(RowsFor([], key, keys), Total()) == 0 && Sum(RowsFor([], key, keys), Count()) == 0
  {
    if keys != [] {
      NoRows(key, keys[..|keys| - 1]);
      assert RowsFor([], key, keys)[..|keys| - 1] == RowsFor([], key, keys[..|keys| - 1]);
    }
  }

  lemma {:induction false} RowsAddUp(ts: seq<Transaction>, key: Transaction -> string, keys: seq<string>)
    requires Distinct(keys)
    requires forall i | 0 <= i < |ts| :: key(ts[i]) in keys
    ensures Sum(RowsFor(ts, key, keys), Total()) == Sum(ts, Amount())
    ensures Sum(RowsFor(ts, key, keys), Count()) == |ts|
  {
    if ts == [] {
      NoRows(key, keys);
    } else {
      var front, last := ts[..|ts| - 1], ts[|ts| - 1];
      RowsAddUp(front, key, keys);
      RowsGain(front, last, key, keys);
      assert ts == front + [last];
    }
  }

  /** Every transaction is in exactly one row: grouped by any key, the rows add up to the number and the
      amount of all transactions. */
  lemma GroupsPartition(ts: seq<Transaction>, key: Transaction -> string)
    ensures Sum(GroupRows(ts, key), Count()) == |ts|
    ensures Sum(GroupRows(ts, key), Total()) == Sum(ts, Amount())
  {
    FirstSeenHasEachKey(ts, key);
    forall i | 0 <= i < |ts| ensures key(ts[i]) in FirstSeen(ts, key) {
      assert IsKey(ts, key, key(ts[i]));
    }
    RowsAddUp(ts, key, FirstSeen(ts, key));
  }

  lemma FilterAppend<T>(items: seq<T>, x: T, p: T -> bool)
    ensures Filter(items + [x], p) == Filter(items, p) + if p(x) then [x] else []
  {
    assert (items + [x])[..|items|] == items;
  }

  lemma {:induction false} StatusesPartition(ts: seq<Transaction>)
    ensures |WithStatus(ts, SUCCESS)| + |WithStatus(ts, FAILED)| + |WithStatus(ts, PENDING)| == |ts|
  {
    if ts != [] {
      var front, last := ts[..|ts| - 1], ts[|ts| - 1];
      StatusesPartition(front);
      assert ts == front + [last];
      FilterAppend(front, last, HasStatus(SUCCESS));
      FilterAppend(front, last, HasStatus(FAILED));
      FilterAppend(front, last, HasStatus(PENDING));
    }
  }

  lemma OfKindAfter(ts: seq<Transaction>, t: Transaction, kind: Kind, weight: Transaction -> int)
    ensures Sum(OfKind(ts + [t], kind), weight) ==
            Sum(OfKind(ts, kind), weight) + if t.kind == kind then weight(t) else 0
  {
    var before := OfKind(ts, kind);
    FilterAppend(ts, t, IsOfKind(kind));
    if t.kind == kind {
      SumAppend(before, t, weight);
    } else {
      assert before + [] == before;
    }
  }

  lemma {:induction false} KindsPartition(ts: seq<Transaction>)
    ensures Sum(OfKind(ts, CREDIT), Amount()) + Sum(OfKind(ts, DEBIT), Amount()) == Sum(ts, Amount())
  {
    if ts != [] {
      var front, last := ts[..|ts| - 1], ts[|ts| - 1];
      KindsPartition(front);
      assert ts == front + [last];
      OfKindAfter(front, last, CREDIT, Amount());
      OfKindAfter(front, last, DEBIT, Amount());
      SumAppend(front, last, Amount());
    }
  }

  /** For the same filters the branch rows, the channel rows and the daily credit and debit add up to one
      sum, and the rows and the three status counts to one number. */
  lemma ReportsAgree(transactions: seq<Transaction>, f: Filters)
    ensures var ts := Filtered(transactions, f);
      var branches, channels, s := GroupRows(ts, Branch()), GroupRows(ts, Channel()), SummaryOf(ts);
      && Sum(branches, Total()) == Sum(channels, Total()) == s.totalCredit + s.totalDebit
      && Sum(branches, Count()) == Sum(channels, Count()) == s.successful + s.failed + s.pending
  {
    var ts := Filtered(transactions, f);
    GroupsPartition(ts, Branch());
    GroupsPartition(ts, Channel());
    StatusesPartition(ts);
    KindsPartition(ts);
  }

  // ---- filters

  lemma {:induction false} FilterHolds<T>(items: seq<T>, p: T -> bool, i: nat)
    requires i < |Filter(items, p)|
    ensures p(Filter(items, p)[i])
  {
    var last := |items| - 1;
    if i < |Filter(items[..last], p)| {
      FilterHolds(items[..last], p, i);
    }
  }

  lemma {:induction false} FilterAll<T>(items: seq<T>, p: T -> bool)
    requires forall i | 0 <= i < |items| :: p(items[i])
    ensures Filter(items, p) == items
  {
    if items != [] {
      FilterAll(items[..|items| - 1], p);
    }
  }

  lemma {:induction false} FilterTwice<T>(items: seq<T>, p: T -> bool, q: T -> bool, both: T -> bool)
    requires forall i | 0 <= i < |items| :: both(items[i]) == (p(items[i]) && q(items[i]))
    ensures Filter(Filter(items, p), q) == Filter(items, both)
  {
    if items != [] {
      var front, last := items[..|items| - 1], items[|items| - 1];
      FilterTwice(front, p, q, both);
      if p(last) {
        FilterAppend(Filter(front, p), last, q);
      } else {
        assert Filter(front, p) + [] == Filter(front, p);
      }
    }
  }

  lemma StatusNamesDiffer(a: Status, b: Status)
    requires Texts.Lower(StatusName(a)) == Texts.Lower(StatusName(b))
    ensures a == b
  {
    assert Texts.Lower(StatusName(a))[0] == Texts.LowerChar(StatusName(a)[0]);
    assert Texts.Lower(StatusName(b))[0] == Texts.LowerChar(StatusName(b)[0]);
  }

  function StatusCount(s: Summary, status: Status): nat {
    match status
    case SUCCESS => s.successful
    case FAILED => s.failed
    case PENDING => s.pending
  }

  /** A status count of the daily summary is the length of the report filtered by that status, written in
      any letter case. */
  lemma StatusFilterCounts(transactions: seq<Transaction>, f: Filters, status: Status, name: string)
    requires f.status.None? && Texts.Lower(name) == Texts.Lower(StatusName(status))
    ensures StatusCount(SummaryOf(Filtered(transactions, f)), status)
         == |Filtered(transactions, f.(status := Some(name)))|
  {
    var narrow := f.(status := Some(name));
    forall t: Transaction
      ensures Passes(narrow, t) == (Passes(f, t) && t.status == status)
    {
      if Texts.Lower(StatusName(t.status)) == Texts.Lower(name) {
        StatusNamesDiffer(t.status, status);
      }
    }
    FilterTwice(transactions, Passing(f), HasStatus(status), Passing(narrow));
  }

  /** The credit, or debit, total of the daily summary is the sum of the report filtered by that type. */
  lemma KindFilterTotals(transactions: seq<Transaction>, f: Filters, kind: Kind, name: string)
    requires f.kind.None? && Texts.Lower(name) == Texts.Lower(KindName(kind))
    ensures var s := SummaryOf(Filtered(transactions, f));
      (if kind.CREDIT? then s.totalCredit else s.totalDebit)
      == Sum(Filtered(transactions, f.(kind := Some(name))), Amount())
  {
    var narrow := f.(kind := Some(name));
    forall t: Transaction
      ensures Passes(narrow, t) == (Passes(f, t) && t.kind == kind)
    {
      assert Texts.Lower(KindName(t.kind))[0] == Texts.LowerChar(KindName(t.kind)[0]);
      assert Texts.Lower(KindName(kind))[0] == Texts.LowerChar(KindName(kind)[0]);
    }
    FilterTwice(transactions, Passing(f), IsOfKind(kind), Passing(narrow));
  }

  /** With a minimum amount the high-value report is exactly the filtered list: the same minimum has already
      been applied. */
  lemma HighValueIsFiltered(transactions: seq<Transaction>, f: Filters)
    requires f.minAmount.Some?
    ensures HighValue(Filtered(transactions, f), f) == Filtered(transactions, f)
  {
    var ts := Filtered(transactions, f);
    forall i | 0 <= i < |ts| ensures ts[i].amount >= f.minAmount.value {
      FilterHolds(transactions, Passing(f), i);
    }
    FilterAll(ts, IsWorth(f.minAmount.value));
  }

  /** Without a minimum amount the high-value report is the one filtered by fifty thousand rupees. */
  lemma HighValueByDefault(transactions: seq<Transaction>, f: Filters)
    requires f.minAmount.None?
    ensures HighValue(Filtered(transactions, f), f) == Filtered(transactions, f.(minAmount := Some(50_000 * 100)))
  {
    FilterTwice(transactions, Passing(f), IsWorth(5000000), Passing(f.(minAmount := Some(5000000))));
  }

  /** What filtering is: it distributes over the list, and keeps one transaction or drops it. */
  lemma {:induction false} FilterKeepsExactly<T>(a: seq<T>, b: seq<T>, x: T, p: T -> bool)
    ensures Filter(a + b, p) == Filter(a, p) + Filter(b, p)
    ensures Filter([x], p) == if p(x) then [x] else []
    ensures multiset(Filter(a, p))[x] == if p(x) then multiset(a)[x] else 0
  {
    FilterAppend([], x, p);
    assert [] + [x] == [x];
    FilterDistributes(a, b, p);
    FilterCounts(a, x, p);
  }

  lemma {:induction false} FilterDistributes<T>(a: seq<T>, b: seq<T>, p: T -> bool)
    ensures Filter(a + b, p) == Filter(a, p) + Filter(b, p)
  {
    if b == [] {
      assert a + b == a;
    } else {
      var last := b[|b| - 1];
      FilterDistributes(a, b[..|b| - 1], p);
      assert a + b == (a + b[..|b| - 1]) + [last];
      FilterAppend(a + b[..|b| - 1], last, p);
    }
  }

  lemma {:induction false} FilterCounts<T>(items: seq<T>, x: T, p: T -> bool)
    ensures multiset(Filter(items, p))[x] == if p(x) then multiset(items)[x] else 0
  {
    if items != [] {
      var front, last := items[..|items| - 1], items[|items| - 1];
      FilterCounts(front, x, p);
      assert items == front + [last];
    }
  }

  datatype TextField = Cif | BranchName | ChannelName

  function TextOf(t: Transaction, field: TextField): string {
    match field
    case Cif => t.senderCif
    case BranchName => t.branch
    case ChannelName => t.channel
  }

  function Wanted(f: Filters, field: TextField): Option<string> {
    match field
    case Cif => f.cif
    case BranchName => f.branch
    case ChannelName => f.channel
  }

  function WithText(f: Filters, field: TextField, text: string): Filters {
    match field
    case Cif => f.(cif := Some(text))
    case BranchName => f.(branch := Some(text))
    case ChannelName => f.(channel := Some(text))
  }

  /** The same text but for the case of its letters. */
  predicate SameText(a: string, b: string) {
    |a| == |b| && forall i | 0 <= i < |a| :: Texts.LowerChar(a[i]) == Texts.LowerChar(b[i])
  }

  function HasText(field: TextField, text: string): (p: Transaction -> bool)
    ensures forall t :: p(t) == SameText(TextOf(t, field), text)
  {
    (t: Transaction) => SameText(TextOf(t, field), text)
  }

  lemma LowerIsSameText(a: string, b: string)
    ensures Texts.Lower(a) == Texts.Lower(b) <==> SameText(a, b)
  {
    if Texts.Lower(a) == Texts.Lower(b) {
      assert forall i | 0 <= i < |a| :: Texts.Lower(a)[i] == Texts.Lower(b)[i];
    }
  }

  /** A report filtered by the sender, the branch or the channel is exactly the transactions with that text,
      written in any letter case, in their order. */
  lemma TextFilterSelects(transactions: seq<Transaction>, f: Filters, field: TextField, text: string)
    requires Wanted(f, field).None?
    ensures Filtered(transactions, WithText(f, field, text)) == Filter(Filtered(transactions, f), HasText(field, text))
  {
    forall t: Transaction
      ensures Passes(WithText(f, field, text), t) == (Passes(f, t) && SameText(TextOf(t, field), text))
    {
      LowerIsSameText(TextOf(t, field), text);
    }
    FilterTwice(transactions, Passing(f), HasText(field, text), Passing(WithText(f, field, text)));
  }

  function Between(least: int, most: int): (p: Transaction -> bool)
    ensures forall t :: p(t) == (least <= t.amount <= most)
  {
    (t: Transaction) => least <= t.amount <= most
  }

  function AtMost(most: int): (p: Transaction -> bool)
    ensures forall t :: p(t) == (t.amount <= most)
  {
    (t: Transaction) => t.amount <= most
  }

  /** A report filtered by amounts is exactly the transactions in that range, its ends included. */
  lemma AmountFiltersSelect(transactions: seq<Transaction>, f: Filters, least: int, most: int)
    requires f.minAmount.None? && f.maxAmount.None?
    ensures Filtered(transactions, f.(minAmount := Some(least))) == Filter(Filtered(transactions, f), IsWorth(least))
    ensures Filtered(transactions, f.(maxAmount := Some(most))) == Filter(Filtered(transactions, f), AtMost(most))
    ensures Filtered(transactions, f.(minAmount := Some(least), maxAmount := Some(most))) ==
            Filter(Filtered(transactions, f), Between(least, most))
  {
    FilterTwice(transactions, Passing(f), IsWorth(least), Passing(f.(minAmount := Some(least))));
    FilterTwice(transactions, Passing(f), AtMost(most), Passing(f.(maxAmount := Some(most))));
    FilterTwice(transactions, Passing(f), Between(least, most),
                Passing(f.(minAmount := Some(least), maxAmount := Some(most))));
  }

  /** In a window's place, one that ends, or one that starts, at the instant. */
  function Until(f: Filters, ms: int): Filters {
    f.(toDate := Some(Instant(ms)))
  }

  function Since(f: Filters, ms: int): Filters {
    f.(fromDate := Some(Instant(ms)))
  }

  predicate OnTheSeam(f: Filters, ms: int, t: Transaction) {
    Selects(f, t) && (t.createdAt == Instant(ms) || t.createdAt == Unreadable)
  }

  function Seam(f: Filters, ms: int): (p: Transaction -> bool)
    ensures forall t :: p(t) == OnTheSeam(f, ms, t)
  {
    (t: Transaction) => OnTheSeam(f, ms, t)
  }

  /** The instant is within the window. */
  predicate Splits(f: Filters, ms: int) {
    && f.fromDate.Some? && f.fromDate.value.Instant? && f.fromDate.value.ms <= ms
    && f.toDate.Some? && f.toDate.value.Instant? && ms <= f.toDate.value.ms
  }

  lemma OneAtTheSeam(f: Filters, ms: int, t: Transaction)
    requires Splits(f, ms)
    ensures Passes(f, t) <==> Passes(Until(f, ms), t) || Passes(Since(f, ms), t)
    ensures OnTheSeam(f, ms, t) <==> Passes(Until(f, ms), t) && Passes(Since(f, ms), t)
  {
    assert Selects(Until(f, ms), t) == Selects(Since(f, ms), t) == Selects(f, t);
  }

  /** Both ends of a date window count, and an unreadable date is in every window: two windows that meet at
      an instant count the transactions of that instant, and the undated ones, twice. */
  lemma {:induction false} WindowsThatMeet(transactions: seq<Transaction>, f: Filters, ms: int)
    requires Splits(f, ms)
    ensures |Filtered(transactions, Until(f, ms))| + |Filtered(transactions, Since(f, ms))|
         == |Filtered(transactions, f)| + |Filter(transactions, Seam(f, ms))|
  {
    if transactions != [] {
      var front, last := transactions[..|transactions| - 1], transactions[|transactions| - 1];
      WindowsThatMeet(front, f, ms);
      OneAtTheSeam(f, ms, last);
      assert transactions == front + [last];
      FilterAppend(front, last, Passing(Until(f, ms)));
      FilterAppend(front, last, Passing(Since(f, ms)));
      FilterAppend(front, last, Passing(f));
      FilterAppend(front, last, Seam(f, ms));
    }
  }
}
