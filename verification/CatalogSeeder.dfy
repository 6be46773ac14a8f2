/** Re-seeding of the billing tables on every start (bill-payment/catalog/bbps-catalog.seeder.ts). */
module CatalogSeeder {
  import opened BillingTables
  import PaymentService

  datatype CatalogRow = CatalogRow(pair: Pair, billNumber: string, amount: int)

  function Upsert(bills: seq<Bill>, row: CatalogRow): seq<Bill> {
    match RowByPair(bills, row.pair)
    case Some(i) =>
      var status := if bills[i].status == PAID then PAID else UNPAID;
      bills[i := Bill(row.pair, row.billNumber, row.amount, status)]
    case None =>
      bills + [Bill(row.pair, row.billNumber, row.amount, UNPAID)]
  }

  function Seed(bills: seq<Bill>, catalog: seq<CatalogRow>): seq<Bill> {
    if catalog == [] then bills
    else Upsert(Seed(bills, catalog[..|catalog| - 1]), catalog[|catalog| - 1])
  }

  function AfterRestart(t: Tables, catalog: seq<CatalogRow>): Tables {
    t.(mock := Seed(t.mock, catalog), demo := Seed(t.demo, catalog))
  }

  /** No row is lost, moved or given another pair, and what is PAID stays PAID. */
  ghost predicate KeepsPaid(before: seq<Bill>, after: seq<Bill>) {
    && |before| <= |after|
    && forall i | 0 <= i < |before| ::
         after[i].pair == before[i].pair && (before[i].status == PAID ==> after[i].status == PAID)
  }

  ghost predicate HasRow(bills: seq<Bill>, row: CatalogRow, status: BillStatus) {
    Bill(row.pair, row.billNumber, row.amount, status) in bills
  }

  ghost predicate PaidPair(bills: seq<Bill>, pair: Pair) {
    exists i | 0 <= i < |bills| :: bills[i].pair == pair && bills[i].status == PAID
  }

  lemma UpsertKeeps(bills: seq<Bill>, row: CatalogRow)
    requires UniquePairs(bills)
    ensures UniquePairs(Upsert(bills, row))
    ensures KeepsPaid(bills, Upsert(bills, row))
    ensures forall pair :: PaidPair(Upsert(bills, row), pair) <==> PaidPair(bills, pair)
    ensures HasRow(Upsert(bills, row), row, if PaidPair(bills, row.pair) then PAID else UNPAID)
    ensures forall bill: Bill :: bill.pair != row.pair ==> (bill in Upsert(bills, row) <==> bill in bills)
  {
    var after := Upsert(bills, row);
    var found := RowByPair(bills, row.pair);
    forall pair: Pair
      ensures PaidPair(after, pair) <==> PaidPair(bills, pair)
    {
      if PaidPair(after, pair) {
        var i :| 0 <= i < |after| && after[i].pair == pair && after[i].status == PAID;
        assert i < |bills| && bills[i].pair == pair && bills[i].status == PAID;
      }
      if PaidPair(bills, pair) {
        var i :| 0 <= i < |bills| && bills[i].pair == pair && bills[i].status == PAID;
        assert after[i].pair == pair && after[i].status == PAID;
      }
    }
    var i := if found.Some? then found.value else |bills|;
    assert after[i].pair == row.pair;
    if found.Some? {
      assert forall j | 0 <= j < |bills| && bills[j].pair == row.pair :: j == i;
    }
    forall bill: Bill | bill.pair != row.pair
      ensures bill in after <==> bill in bills
    {
      if bill in after {
        var j :| 0 <= j < |after| && after[j] == bill;
        assert bills[j] == bill;
      }
      if bill in bills {
        var j :| 0 <= j < |bills| && bills[j] == bill;
        assert after[j] == bill;
      }
    }
  }

  /** Seeding keeps every row and every PAID status, pays nothing, leaves the rows the catalog does not
      name alone, and installs the catalog's own rows. */
  lemma {:induction false} SeedKeeps(bills: seq<Bill>, catalog: seq<CatalogRow>)
    requires UniquePairs(bills)
    ensures UniquePairs(Seed(bills, catalog))
    ensures KeepsPaid(bills, Seed(bills, catalog))
    ensures forall pair :: PaidPair(Seed(bills, catalog), pair) <==> PaidPair(bills, pair)
    ensures forall bill: Bill :: (forall row | row in catalog :: row.pair != bill.pair) ==>
      (bill in Seed(bills, catalog) <==> bill in bills)
  {
    if catalog != [] {
      var front, last := catalog[..|catalog| - 1], catalog[|catalog| - 1];
      SeedKeeps(bills, front);
      UpsertKeeps(Seed(bills, front), last);
      forall bill: Bill | forall row | row in catalog :: row.pair != bill.pair
        ensures bill in Seed(bills, catalog) <==> bill in bills
      {
        assert last in catalog;
        assert forall row | row in front :: row in catalog;
      }
    }
  }

  ghost predicate DistinctPairs(catalog: seq<CatalogRow>) {
    forall i, j | 0 <= i < j < |catalog| :: catalog[i].pair != catalog[j].pair
  }

  /** Each catalog row is in the table afterwards, unpaid unless its pair was already paid. */
  lemma {:induction false} SeedInstalls(bills: seq<Bill>, catalog: seq<CatalogRow>, k: nat)
    requires UniquePairs(bills) && DistinctPairs(catalog) && k < |catalog|
    ensures HasRow(Seed(bills, catalog), catalog[k], if PaidPair(bills, catalog[k].pair) then PAID else UNPAID)
  {
    var last := |catalog| - 1;
    var seeded := Seed(bills, catalog[..last]);
    SeedKeeps(bills, catalog[..last]);
    UpsertKeeps(seeded, catalog[last]);
    if k < last {
      SeedInstalls(bills, catalog[..last], k);
    }
  }

  class BbpsCatalogSeeder {
    const store: PaymentService.BillingStore

    constructor (store: PaymentService.BillingStore)
      ensures this.store == store
    {
      this.store := store;
    }

    method UpsertMockBill(row: CatalogRow)
      modifies store
      ensures store.Snapshot() == old(store.Snapshot()).(mock := Upsert(old(store.mock), row))
    {
      var existing := RowByPair(store.mock, row.pair);
      var status := if existing.Some? && store.mock[existing.value].status == PAID then PAID else UNPAID;
      var bill := Bill(row.pair, row.billNumber, row.amount, status);
      if existing.Some? {
        store.mock := store.mock[existing.value := bill];
        return;
      }
      store.mock := store.mock + [bill];
    }

    method UpsertDemo(row: CatalogRow)
      modifies store
      ensures store.Snapshot() == old(store.Snapshot()).(demo := Upsert(old(store.demo), row))
    {
      var existing := RowByPair(store.demo, row.pair);
      var status := if existing.Some? && store.demo[existing.value].status == PAID then PAID else UNPAID;
      var bill := Bill(row.pair, row.billNumber, row.amount, status);
      if existing.Some? {
        store.demo := store.demo[existing.value := bill];
        return;
      }
      store.demo := store.demo + [bill];
    }

    method OnModuleInit(catalog: seq<CatalogRow>)
      modifies store
      ensures store.Snapshot() == AfterRestart(old(store.Snapshot()), catalog)
    {
      for i := 0 to |catalog|
        invariant store.Snapshot() == AfterRestart(old(store.Snapshot()), catalog[..i])
      {
        assert catalog[..i + 1][..i] == catalog[..i];
        UpsertMockBill(catalog[i]);
        UpsertDemo(catalog[i]);
      }
      assert catalog[..|catalog|] == catalog;
    }
  }
}
