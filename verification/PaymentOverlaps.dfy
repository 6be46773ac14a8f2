/** What concurrent callers can keep to so that a bill is charged once: exactly which payment, sent while
    others are under way, makes a second charge possible. */
module PaymentOverlaps {
  import opened Outcomes
  import opened RbacConstants
  import opened BillingTables
  import opened PaymentService
  import opened CatalogSeeder
  import opened PaymentRuns
  import opened PaymentLedger
  import opened PaymentHistory
  import opened PaymentRaces
  import opened PaymentRaceLedger

  ghost predicate KeyFree(r: Race, c: nat)
    requires c < |r.calls|
  {
    RowByKey(r.t.payments, r.calls[c].dto.idempotencyKey).None?
  }

  predicate OwesPair(stage: Stage, pair: Pair) {
    Owes(stage) && stage.bill.pair == pair
  }

  /** The payment was sent and may still succeed. */
  predicate UnderWay(stage: Stage, pair: Pair) {
    && (stage.Waiting? || (stage.Saving? && stage.answer.Answered? && stage.answer.status.SUCCESS?))
    && stage.bill.pair == pair
  }

  /** The call may still store a successful payment of the pair. */
  ghost predicate MayStore(r: Race, c: nat, pair: Pair)
    requires c < |r.calls|
  {
    UnderWay(r.calls[c].stage, pair) && KeyFree(r, c)
  }

  /** The call finds the bill UNPAID and sends its payment. */
  predicate PassesCheck(r: Race, a: Action, pair: Pair) {
    && a.Advance? && a.call < |r.calls| && (r.calls[a.call].stage.SeekMock? || r.calls[a.call].stage.SeekDemo?)
    && var q := Act(r, a);
       a.call < |q.calls| && q.calls[a.call].stage.Waiting? && q.calls[a.call].stage.bill.pair == pair
  }

  /** Another call owes the bill of the pair, or is about to store a payment of it under another key. */
  ghost predicate HasRival(r: Race, c: nat, pair: Pair)
    requires c < |r.calls|
  {
    exists d: nat | d < |r.calls| ::
      || OwesPair(r.calls[d].stage, pair)
      || (MayStore(r, d, pair) && r.calls[d].dto.idempotencyKey != r.calls[c].dto.idempotencyKey)
  }

  /** A payment with a free key is sent while there is a rival. */
  ghost predicate Overlaps(r: Race, a: Action, pair: Pair) {
    PassesCheck(r, a, pair) && KeyFree(r, a.call) && HasRival(r, a.call, pair)
  }

  ghost predicate NoOverlaps(t: Tables, actions: seq<Action>, pair: Pair) {
    if actions == [] then true
    else
      var front := actions[..|actions| - 1];
      NoOverlaps(t, front, pair) && !Overlaps(RunRace(Idle(t), front), actions[|actions| - 1], pair)
  }

  // ---- every call works on the record its pair names

  ghost predicate NamesItsRecord(r: Race, c: nat)
    requires c < |r.calls|
  {
    var stage := r.calls[c].stage;
    && (stage.SeekDemo? ==> SoughtRow(r.t.mock, r.calls[c].dto).None?)
    && (stage.Waiting? || stage.Saving? || Owes(stage) ==>
          LookupByPair(r.t, stage.bill.pair) == Some(stage.record))
  }

  ghost predicate Primary(r: Race) {
    NumbersAgree(r.t) && PaidArePrimary(r.t) && forall c | 0 <= c < |r.calls| :: NamesItsRecord(r, c)
  }

  lemma LookupsStay(t: Tables, u: Tables)
    requires SameBilling(t, u)
    ensures forall dto :: SoughtRow(t.mock, dto) == SoughtRow(u.mock, dto)
    ensures forall pair :: LookupByPair(t, pair) == LookupByPair(u, pair)
  {
    SameBillsSameRows(t.mock, u.mock);
    SameBillingSameLookups(t, u);
  }

  lemma PrimaryAfter(r: Race, q: Race, c: nat)
    requires Primary(r) && SameBilling(r.t, q.t) && PaidArePrimary(q.t)
    requires |q.calls| == |r.calls| || (|q.calls| == |r.calls| + 1 && c == |r.calls|)
    requires c < |q.calls| && NamesItsRecord(q, c)
    requires forall d: nat | d < |r.calls| && d != c :: q.calls[d] == r.calls[d]
    ensures Primary(q)
  {
    LookupsStay(r.t, q.t);
    AgreementIsShared(r.t, q.t);
    forall d: nat | d < |q.calls| ensures NamesItsRecord(q, d) {
      if d != c {
        assert q.calls[d] == r.calls[d];
        assert NamesItsRecord(r, d);
      }
    }
  }

  lemma SoughtIsPrimary(r: Race, c: nat, record: BillingRecord)
    requires Primary(r) && c < |r.calls| && Exists(r.t, record)
    requires var dto := r.calls[c].dto;
      || (r.calls[c].stage.SeekMock? && record.InMock? && SoughtRow(r.t.mock, dto) == Some(record.row))
      || (r.calls[c].stage.SeekDemo? && record.InDemo? && SoughtRow(r.t.demo, dto) == Some(record.row))
    ensures LookupByPair(r.t, BillAt(r.t, record).pair) == Some(record)
  {
    var dto := r.calls[c].dto;
    assert NamesItsRecord(r, c);
    assert NamedRecord(r.t, dto) == Some(record);
    if dto.billNumber != "" {
      assert LookupByNumber(r.t, dto.billNumber) == Some(record);
    }
  }

  lemma SendKeepsPrimary(r: Race, c: nat, record: BillingRecord)
    requires Primary(r) && c < |r.calls| && Exists(r.t, record)
    requires LookupByPair(r.t, BillAt(r.t, record).pair) == Some(record)
    ensures Primary(CheckAndSend(r, c, record, BillAt(r.t, record)))
  {
    var q := CheckAndSend(r, c, record, BillAt(r.t, record));
    PaymentsDoNotMatter(r.t, q.t);
    PrimaryAfter(r, q, c);
  }

  lemma MarkKeepsPrimary(r: Race, c: nat)
    requires Inv(r) && Primary(r) && c < |r.calls| && r.calls[c].stage.Marking?
    ensures CanMove(r, c) && Primary(Mark(r, c))
  {
    var s := r.calls[c].stage;
    assert StageOk(r, c) && NamesItsRecord(r, c);
    assert s.bill.(status := PAID) == BillAt(r.t, s.record).(status := PAID);
    var q := Mark(r, c);
    assert q.t == MarkPaid(r.t, s.record);
    MarkPaidKeepsPrimary(r.t, s.record);
    PrimaryAfter(r, q, c);
  }

  lemma SaveKeepsPrimary(r: Race, c: nat)
    requires Primary(r) && c < |r.calls| && r.calls[c].stage.Saving? && r.calls[c].stage.answer.Answered?
    ensures Primary(Save(r, c))
  {
    var q := Save(r, c);
    assert NamesItsRecord(r, c);
    PaymentsDoNotMatter(r.t, q.t);
    PrimaryAfter(r, q, c);
  }

  lemma ReadKeepsPrimary(r: Race, c: nat, answer: BbpsAnswer)
    requires Primary(r) && CanMove(r, c)
    requires var stage := r.calls[c].stage; stage.Started? || stage.ReplayMock? || stage.ReplayDemo?
    ensures Primary(Move(r, c, answer))
  {
    PrimaryAfter(r, Move(r, c, answer), c);
  }

  lemma AnswerKeepsPrimary(r: Race, c: nat, answer: BbpsAnswer)
    requires Primary(r) && CanMove(r, c) && r.calls[c].stage.Waiting?
    ensures Primary(Move(r, c, answer))
  {
    assert NamesItsRecord(r, c);
    PrimaryAfter(r, Move(r, c, answer), c);
  }

  lemma SeekKeepsPrimary(r: Race, c: nat, answer: BbpsAnswer)
    requires Primary(r) && CanMove(r, c) && (r.calls[c].stage.SeekMock? || r.calls[c].stage.SeekDemo?)
    ensures Primary(Move(r, c, answer))
  {
    var inMock := r.calls[c].stage.SeekMock?;
    var row := SoughtRow(if inMock then r.t.mock else r.t.demo, r.calls[c].dto);
    if row.Some? {
      var record := if inMock then InMock(row.value) else InDemo(row.value);
      SoughtIsPrimary(r, c, record);
      SendKeepsPrimary(r, c, record);
    } else {
      PrimaryAfter(r, Move(r, c, answer), c);
    }
  }

  lemma ActKeepsPrimary(r: Race, a: Action)
    requires Inv(r) && Primary(r)
    ensures Primary(Act(r, a))
  {
    match a
    case Begin(dto, actor) => PrimaryAfter(r, Act(r, a), |r.calls|);
    case Advance(c, answer) =>
      if CanMove(r, c) {
        var stage := r.calls[c].stage;
        if stage.SeekMock? || stage.SeekDemo? {
          SeekKeepsPrimary(r, c, answer);
        } else if stage.Saving? {
          SaveKeepsPrimary(r, c);
        } else if stage.Marking? {
          MarkKeepsPrimary(r, c);
        } else if stage.Waiting? {
          AnswerKeepsPrimary(r, c, answer);
        } else if !Finished(stage) {
          ReadKeepsPrimary(r, c, answer);
        }
      }
    case Reject(c) =>
      if c < |r.calls| && !Finished(r.calls[c].stage) {
        assert NamesItsRecord(r, c);
        PrimaryAfter(r, Act(r, a), c);
      }
  }

  // ---- without overlaps nothing is charged again

  /** The payments of the pair that may still be stored share one key, and none has been stored. */
  ghost predicate Sole(r: Race, pair: Pair) {
    && (forall c: nat, d: nat | c < |r.calls| && d < |r.calls| && MayStore(r, c, pair) && MayStore(r, d, pair) ::
          r.calls[c].dto.idempotencyKey == r.calls[d].dto.idempotencyKey)
    && (forall c: nat | c < |r.calls| && MayStore(r, c, pair) :: !IsCharged(r, pair))
  }

  /** An action after which no call may store that might not before. */
  lemma NothingNewIsSole(r: Race, q: Race, pair: Pair)
    requires Sole(r, pair) && |r.calls| <= |q.calls|
    requires forall c: nat | c < |q.calls| && MayStore(q, c, pair) ::
      c < |r.calls| && MayStore(r, c, pair) && q.calls[c].dto == r.calls[c].dto
    requires IsCharged(q, pair) ==> IsCharged(r, pair)
    ensures Sole(q, pair)
  {
  }

  lemma MoveGrows(r: Race, c: nat, answer: BbpsAnswer)
    requires CanMove(r, c)
    ensures var q := Move(r, c, answer);
      && |r.calls| == |q.calls| && (forall d | 0 <= d < |r.calls| :: q.calls[d].dto == r.calls[d].dto)
      && r.t.payments <= q.t.payments
  {
  }

  lemma ActGrows(r: Race, a: Action)
    ensures var q := Act(r, a);
      && |r.calls| <= |q.calls| && (forall c | 0 <= c < |r.calls| :: q.calls[c].dto == r.calls[c].dto)
      && r.t.payments <= q.t.payments
  {
    if a.Advance? && CanMove(r, a.call) {
      MoveGrows(r, a.call, a.answer);
    }
  }

  lemma KeysStayTaken(r: Race, a: Action, c: nat)
    requires c < |r.calls| && !KeyFree(r, c)
    ensures c < |Act(r, a).calls| && Act(r, a).calls[c].dto == r.calls[c].dto && !KeyFree(Act(r, a), c)
  {
    ActGrows(r, a);
    KeyStaysTaken(r.t.payments, Act(r, a).t.payments, r.calls[c].dto.idempotencyKey);
  }

  lemma KeyStaysTaken(before: seq<Payment>, after: seq<Payment>, key: string)
    requires before <= after && RowByKey(before, key).Some?
    ensures RowByKey(after, key).Some?
  {
    assert after[RowByKey(before, key).value].idempotencyKey == key;
  }

  lemma MoveUnderWay(r: Race, c: nat, answer: BbpsAnswer, pair: Pair)
    requires CanMove(r, c) && UnderWay(Move(r, c, answer).calls[c].stage, pair)
    requires !r.calls[c].stage.SeekMock? && !r.calls[c].stage.SeekDemo?
    ensures UnderWay(r.calls[c].stage, pair)
  {
  }

  lemma AdvanceUnderWay(r: Race, a: Action, pair: Pair)
    requires a.Advance? && CanMove(r, a.call) && UnderWay(Act(r, a).calls[a.call].stage, pair)
    ensures UnderWay(r.calls[a.call].stage, pair) || PassesCheck(r, a, pair)
  {
    var c := a.call;
    if r.calls[c].stage.SeekMock? || r.calls[c].stage.SeekDemo? {
      SeekIsNotSaving(r, c, a.answer);
    } else {
      MoveUnderWay(r, c, a.answer, pair);
    }
  }

  lemma SeekIsNotSaving(r: Race, c: nat, answer: BbpsAnswer)
    requires CanMove(r, c) && (r.calls[c].stage.SeekMock? || r.calls[c].stage.SeekDemo?)
    ensures !Move(r, c, answer).calls[c].stage.Saving?
  {
  }

  lemma OthersStages(r: Race, a: Action, c: nat)
    requires c < |Act(r, a).calls| && !(a.Advance? && a.call == c)
    ensures c < |r.calls| ==> Act(r, a).calls[c].stage == r.calls[c].stage || Finished(Act(r, a).calls[c].stage)
    ensures c >= |r.calls| ==> a.Begin? && Act(r, a).calls[c].stage == FirstStage(a.dto, a.actor)
  {
  }

  /** Only a call that passes the check begins to be under way. */
  lemma UnderWayBefore(r: Race, a: Action, c: nat, pair: Pair)
    requires c < |Act(r, a).calls| && UnderWay(Act(r, a).calls[c].stage, pair)
    requires !(PassesCheck(r, a, pair) && a.call == c)
    ensures c < |r.calls| && UnderWay(r.calls[c].stage, pair) && Act(r, a).calls[c].dto == r.calls[c].dto
  {
    ActGrows(r, a);
    if a.Advance? && a.call == c {
      if CanMove(r, c) {
        AdvanceUnderWay(r, a, pair);
      }
    } else {
      OthersStages(r, a, c);
    }
  }

  lemma MayStoreBefore(r: Race, a: Action, c: nat, pair: Pair)
    requires c < |Act(r, a).calls| && MayStore(Act(r, a), c, pair)
    requires !(PassesCheck(r, a, pair) && a.call == c)
    ensures c < |r.calls| && MayStore(r, c, pair) && Act(r, a).calls[c].dto == r.calls[c].dto
  {
    UnderWayBefore(r, a, c, pair);
    if !KeyFree(r, c) {
      KeysStayTaken(r, a, c);
    }
  }

  lemma PaidRecord(t: Tables, pair: Pair) returns (record: BillingRecord)
    requires PaidAnywhere(t, pair)
    ensures Exists(t, record) && BillAt(t, record).pair == pair && BillAt(t, record).status == PAID
  {
    if PaidPair(t.mock, pair) {
      var i: nat :| i < |t.mock| && t.mock[i].pair == pair && t.mock[i].status == PAID;
      record := InMock(i);
    } else {
      var i: nat :| i < |t.demo| && t.demo[i].pair == pair && t.demo[i].status == PAID;
      record := InDemo(i);
    }
  }

  lemma PaidPrimary(t: Tables, record: BillingRecord)
    requires PaidArePrimary(t) && Exists(t, record) && LookupByPair(t, BillAt(t, record).pair) == Some(record)
    ensures PaidAnywhere(t, BillAt(t, record).pair) ==> BillAt(t, record).status == PAID
  {
    if PaidAnywhere(t, BillAt(t, record).pair) {
      var other := PaidRecord(t, BillAt(t, record).pair);
      assert other == record;
    }
  }

  lemma OwedIsRival(r: Race, c: nat, pair: Pair)
    requires c < |r.calls| && IsOwed(r, pair)
    ensures HasRival(r, c, pair)
  {
    var d: nat :| d < |r.calls| && Owes(r.calls[d].stage) && r.calls[d].stage.bill.pair == pair;
    assert OwesPair(r.calls[d].stage, pair);
  }

  lemma CheckedIsUncharged(r: Race, a: Action, pair: Pair)
    requires Inv(r) && Primary(r) && PassesCheck(r, a, pair) && KeyFree(r, a.call) && !HasRival(r, a.call, pair)
    ensures !IsCharged(r, pair)
  {
    var inMock := r.calls[a.call].stage.SeekMock?;
    var row := SoughtRow(if inMock then r.t.mock else r.t.demo, r.calls[a.call].dto);
    var record := if inMock then InMock(row.value) else InDemo(row.value);
    SoughtIsPrimary(r, a.call, record);
    PaidPrimary(r.t, record);
    if IsOwed(r, pair) {
      OwedIsRival(r, a.call, pair);
    }
  }

  lemma SendIsSole(r: Race, a: Action, pair: Pair)
    requires Inv(r) && Primary(r) && Sole(r, pair) && PassesCheck(r, a, pair) && !Overlaps(r, a, pair)
    ensures Sole(Act(r, a), pair)
  {
    var q := Act(r, a);
    SendStoresNothing(r, a, pair);
    forall c: nat | c < |q.calls| && MayStore(q, c, pair) && c != a.call
      ensures c < |r.calls| && MayStore(r, c, pair) && q.calls[c].dto == r.calls[c].dto
    {
      MayStoreBefore(r, a, c, pair);
    }
    if KeyFree(r, a.call) {
      CheckedIsUncharged(r, a, pair);
      NewcomerIsSole(r, q, a.call, pair);
    } else {
      NothingNewIsSole(r, q, pair);
    }
  }

  /** A newcomer without rivals, while nothing is charged. */
  lemma NewcomerIsSole(r: Race, q: Race, mine: nat, pair: Pair)
    requires Sole(r, pair) && |r.calls| <= |q.calls| && mine < |r.calls| && q.calls[mine].dto == r.calls[mine].dto
    requires forall c: nat | c < |q.calls| && MayStore(q, c, pair) && c != mine ::
      c < |r.calls| && MayStore(r, c, pair) && q.calls[c].dto == r.calls[c].dto
    requires !HasRival(r, mine, pair) && !IsCharged(q, pair)
    ensures Sole(q, pair)
  {
  }

  lemma SendStoresNothing(r: Race, a: Action, pair: Pair)
    requires Inv(r) && PassesCheck(r, a, pair)
    ensures |Act(r, a).calls| == |r.calls| && Act(r, a).calls[a.call].dto == r.calls[a.call].dto
    ensures KeyFree(Act(r, a), a.call) <==> KeyFree(r, a.call)
    ensures IsCharged(Act(r, a), pair) <==> IsCharged(r, pair)
  {
    ActIsQuiet(r, a);
    QuietCharges(r, Act(r, a), pair);
  }

  lemma StoreIsSole(r: Race, a: Action, pair: Pair)
    requires Inv(r) && Sole(r, pair) && StoresSuccess(r, a) && r.calls[a.call].stage.bill.pair == pair
    ensures Sole(Act(r, a), pair) && !StoresAgain(r, a, pair)
  {
    var q, mine := Act(r, a), a.call;
    assert MayStore(r, mine, pair);
    var row := |r.t.payments|;
    assert q.t.payments[row].idempotencyKey == r.calls[mine].dto.idempotencyKey;
    forall c: nat | c < |q.calls| && MayStore(q, c, pair) ensures false {
      MayStoreBefore(r, a, c, pair);
    }
  }

  lemma ActIsSole(r: Race, a: Action, pair: Pair)
    requires Inv(r) && Primary(r) && Sole(r, pair) && !Overlaps(r, a, pair)
    ensures Sole(Act(r, a), pair) && !StoresAgain(r, a, pair)
  {
    if PassesCheck(r, a, pair) {
      SendIsSole(r, a, pair);
    } else if StoresSuccess(r, a) && r.calls[a.call].stage.bill.pair == pair {
      StoreIsSole(r, a, pair);
    } else {
      var q := Act(r, a);
      forall c: nat | c < |q.calls| && MayStore(q, c, pair)
        ensures c < |r.calls| && MayStore(r, c, pair) && q.calls[c].dto == r.calls[c].dto
      {
        MayStoreBefore(r, a, c, pair);
      }
      ChargedBefore(r, a, pair);
      ActGrows(r, a);
      NothingNewIsSole(r, q, pair);
    }
  }

  lemma ChargedBefore(r: Race, a: Action, pair: Pair)
    requires Inv(r) && !(StoresSuccess(r, a) && r.calls[a.call].stage.bill.pair == pair)
    ensures IsCharged(Act(r, a), pair) ==> IsCharged(r, pair)
  {
    if StoresSuccess(r, a) {
      StoreCharges(r, a.call, pair);
    } else if Marks(r, a) {
      MarkCharges(r, a.call, pair);
    } else {
      ActIsQuiet(r, a);
      QuietCharges(r, Act(r, a), pair);
    }
  }

  lemma {:induction false} RunIsSole(t: Tables, actions: seq<Action>, pair: Pair)
    requires Fresh(t) && NumbersAgree(t) && NoOverlaps(t, actions, pair)
    ensures var r := RunRace(Idle(t), actions);
      Inv(r) && Primary(r) && Sole(r, pair) && StoredAgain(t, actions, pair) == 0
  {
    EveryInterleavingKeeps(t, actions);
    if actions != [] {
      var front, a := actions[..|actions| - 1], actions[|actions| - 1];
      RunIsSole(t, front, pair);
      ActKeepsPrimary(RunRace(Idle(t), front), a);
      ActIsSole(RunRace(Idle(t), front), a, pair);
    }
  }

  /** Where numbers and pairs agree, an interleaving without overlaps charges the pair at most once. */
  lemma NoOverlapsChargeOnce(t: Tables, actions: seq<Action>, pair: Pair)
    requires Fresh(t) && NumbersAgree(t) && NoOverlaps(t, actions, pair)
    ensures Successes(RunRace(Idle(t), actions), pair) <= 1
  {
    RunIsSole(t, actions, pair);
    RaceSurplusIsStoredAgain(t, actions, pair);
  }

  // ---- an overlap can charge twice

  /** No payment of the pair passes the check. */
  ghost predicate NoChecks(r: Race, actions: seq<Action>, pair: Pair) {
    if actions == [] then true
    else
      var front := actions[..|actions| - 1];
      NoChecks(r, front, pair) && !PassesCheck(RunRace(r, front), actions[|actions| - 1], pair)
  }

  lemma RunThenAct(r: Race, actions: seq<Action>, a: Action, pair: Pair)
    ensures RunRace(r, actions + [a]) == Act(RunRace(r, actions), a)
    ensures NoChecks(r, actions + [a], pair) <==>
      NoChecks(r, actions, pair) && !PassesCheck(RunRace(r, actions), a, pair)
  {
    assert (actions + [a])[..|actions|] == actions;
  }

  lemma {:induction false} NoChecksSplit(r: Race, a: seq<Action>, b: seq<Action>, pair: Pair)
    requires NoChecks(r, a, pair) && NoChecks(RunRace(r, a), b, pair)
    ensures NoChecks(r, a + b, pair)
  {
    if b == [] {
      assert a + b == a;
    } else {
      var front := b[..|b| - 1];
      assert (a + b)[..|a + b| - 1] == a + front;
      NoChecksSplit(r, a, front, pair);
      RunSplit(r, a, front);
    }
  }

  /** One more payment of the pair, stored by the call without anyone else moving. */
  ghost predicate StoredBy(r: Race, q: Race, c: nat, pair: Pair)
    requires c < |r.calls|
  {
    && Inv(q) && Successes(q, pair) == Successes(r, pair) + 1
    && |q.calls| == |r.calls| && (forall d | 0 <= d < |r.calls| && d != c :: q.calls[d] == r.calls[d])
    && forall key | key != r.calls[c].dto.idempotencyKey && RowByKey(r.t.payments, key).None? ::
         RowByKey(q.t.payments, key).None?
  }

  lemma SavingStores(r: Race, c: nat, pair: Pair)
    requires Inv(r) && c < |r.calls| && r.calls[c].stage.Saving? && MayStore(r, c, pair)
    ensures StoredBy(r, Act(r, Advance(c, Unreachable)), c, pair)
    ensures !PassesCheck(r, Advance(c, Unreachable), pair)
  {
    var q := Act(r, Advance(c, Unreachable));
    assert q == Save(r, c);
    SaveKeeps(r, c);
    StoreCharges(r, c, pair);
    var payment := q.t.payments[|r.t.payments|];
    assert q.t.payments == r.t.payments + [payment];
    forall key | key != r.calls[c].dto.idempotencyKey && RowByKey(r.t.payments, key).None?
      ensures RowByKey(q.t.payments, key).None?
    {
      assert payment.idempotencyKey != key;
    }
  }

  lemma WaitingAnswers(r: Race, c: nat, pair: Pair)
    requires Inv(r) && c < |r.calls| && r.calls[c].stage.Waiting? && MayStore(r, c, pair)
    ensures var a := Advance(c, Answered(SUCCESS, None));
      && !PassesCheck(r, a, pair)
      && var q := Act(r, a);
         && Inv(q) && q.t == r.t && |q.calls| == |r.calls| && q.calls[c].dto == r.calls[c].dto
         && (forall d | 0 <= d < |r.calls| && d != c :: q.calls[d] == r.calls[d])
         && q.calls[c].stage.Saving? && MayStore(q, c, pair)
  {
    assert StageOk(r, c);
    AnswerKeeps(r, c, Answered(SUCCESS, None));
  }

  lemma MayStoreStores(r: Race, c: nat, pair: Pair) returns (more: seq<Action>)
    requires Inv(r) && c < |r.calls| && MayStore(r, c, pair)
    ensures NoChecks(r, more, pair) && StoredBy(r, RunRace(r, more), c, pair)
  {
    var answer, save := Advance(c, Answered(SUCCESS, None)), Advance(c, Unreachable);
    RunThenAct(r, [], save, pair);
    assert [] + [save] == [save];
    if r.calls[c].stage.Saving? {
      SavingStores(r, c, pair);
      more := [save];
    } else {
      WaitingAnswers(r, c, pair);
      RunThenAct(r, [], answer, pair);
      assert [] + [answer] == [answer];
      RunThenAct(r, [answer], save, pair);
      SavingStores(Act(r, answer), c, pair);
      more := [answer] + [save];
    }
  }

  /** Two payments of the pair under different keys, both still to be stored. */
  lemma BothStore(r: Race, c: nat, d: nat, pair: Pair) returns (more: seq<Action>)
    requires Inv(r) && c < |r.calls| && d < |r.calls| && MayStore(r, c, pair) && MayStore(r, d, pair)
    requires r.calls[c].dto.idempotencyKey != r.calls[d].dto.idempotencyKey
    ensures NoChecks(r, more, pair) && Successes(RunRace(r, more), pair) == Successes(r, pair) + 2
  {
    var first := MayStoreStores(r, c, pair);
    var q := RunRace(r, first);
    assert MayStore(q, d, pair);
    var second := MayStoreStores(q, d, pair);
    NoChecksSplit(r, first, second, pair);
    RunSplit(r, first, second);
    more := first + second;
  }

  lemma OverlapCharges(t: Tables, front: seq<Action>, a: Action, pair: Pair) returns (more: seq<Action>)
    requires Fresh(t) && Overlaps(RunRace(Idle(t), front), a, pair)
    ensures var q := Act(RunRace(Idle(t), front), a);
      NoChecks(q, more, pair) && Successes(RunRace(q, more), pair) >= 2
  {
    var r, c := RunRace(Idle(t), front), a.call;
    var q := Act(r, a);
    EveryInterleavingKeeps(t, front);
    ActKeeps(r, a);
    SendStoresNothing(r, a, pair);
    OthersAtSend(r, a, pair);
    RunThenAct(Idle(t), front, a, pair);
    RaceSurplusIsStoredAgain(t, front + [a], pair);
    assert MayStore(q, c, pair);
    var d: nat :| d < |r.calls| &&
      (OwesPair(r.calls[d].stage, pair)
       || (MayStore(r, d, pair) && r.calls[d].dto.idempotencyKey != r.calls[c].dto.idempotencyKey));
    if OwesPair(r.calls[d].stage, pair) {
      assert IsOwed(r, pair) && IsCharged(q, pair);
      more := MayStoreStores(q, c, pair);
    } else {
      more := BothStore(q, c, d, pair);
    }
  }

  lemma OthersAtSend(r: Race, a: Action, pair: Pair)
    requires PassesCheck(r, a, pair)
    ensures Act(r, a).t.payments == r.t.payments && |Act(r, a).calls| == |r.calls|
    ensures forall d | 0 <= d < |r.calls| && d != a.call :: Act(r, a).calls[d] == r.calls[d]
    ensures UnderWay(Act(r, a).calls[a.call].stage, pair)
  {
  }

  lemma {:induction false} NoChecksNoOverlaps(t: Tables, actions: seq<Action>, more: seq<Action>, pair: Pair)
    requires NoOverlaps(t, actions, pair) && NoChecks(RunRace(Idle(t), actions), more, pair)
    ensures NoOverlaps(t, actions + more, pair)
  {
    if more == [] {
      assert actions + more == actions;
    } else {
      var front := more[..|more| - 1];
      assert (actions + more)[..|actions + more| - 1] == actions + front;
      NoChecksNoOverlaps(t, actions, front, pair);
      RunSplit(Idle(t), actions, front);
    }
  }

  ghost predicate CanChargeTwice(r: Race, pair: Pair) {
    exists more :: NoChecks(r, more, pair) && Successes(RunRace(r, more), pair) >= 2
  }

  /** Where numbers and pairs agree and nothing has overlapped so far: an action makes it possible that the
      payments under way charge the pair twice, without any further payment being sent, if and only if it
      sends a payment while there is a rival. */
  lemma SecondChargeIsPossibleIffOverlap(t: Tables, front: seq<Action>, a: Action, pair: Pair)
    requires Fresh(t) && NumbersAgree(t) && NoOverlaps(t, front, pair)
    ensures CanChargeTwice(Act(RunRace(Idle(t), front), a), pair) <==> Overlaps(RunRace(Idle(t), front), a, pair)
  {
    var r := RunRace(Idle(t), front);
    if Overlaps(r, a, pair) {
      var more := OverlapCharges(t, front, a, pair);
    } else {
      RunThenAct(Idle(t), front, a, pair);
      assert (front + [a])[..|front|] == front;
      forall more | NoChecks(Act(r, a), more, pair)
        ensures Successes(RunRace(Act(r, a), more), pair) <= 1
      {
        NoChecksNoOverlaps(t, front + [a], more, pair);
        RunSplit(Idle(t), front + [a], more);
        NoOverlapsChargeOnce(t, front + [a] + more, pair);
      }
    }
  }

  // ---- two keys, one bill

  /** A new call, up to the lookup that finds the bill. */
  function ToLookup(c: nat, dto: CreatePaymentDto, actor: Actor, record: BillingRecord): seq<Action> {
    [Begin(dto, actor)] + [Advance(c, Unreachable)] + if record.InMock? then [] else [Advance(c, Unreachable)]
  }

  lemma GetsToLookup(r: Race, dto: CreatePaymentDto, actor: Actor, record: BillingRecord)
    requires r.t.payments == [] && actor.sub != "" && dto.billNumber != ""
    requires LookupByNumber(r.t, dto.billNumber) == Some(record)
    ensures RunRace(r, ToLookup(|r.calls|, dto, actor, record)) ==
      r.(calls := r.calls + [Call(dto, actor, if record.InMock? then SeekMock else SeekDemo)])
  {
    var c := |r.calls|;
    var begin, move := [Begin(dto, actor)], [Advance(c, Unreachable)];
    var begun := r.(calls := r.calls + [Call(dto, actor, Started)]);
    var sought := r.(calls := r.calls + [Call(dto, actor, SeekMock)]);
    RunOfOne(r, Begin(dto, actor));
    RunOfOne(begun, Advance(c, Unreachable));
    RunOfOne(sought, Advance(c, Unreachable));
    assert Act(begun, Advance(c, Unreachable)).calls == sought.calls;
    RunSplit(r, begin, move);
    if record.InMock? {
      assert ToLookup(c, dto, actor, record) == begin + move;
    } else {
      var passed := r.(calls := r.calls + [Call(dto, actor, SeekDemo)]);
      assert Act(sought, Advance(c, Unreachable)).calls == passed.calls;
      RunSplit(r, begin + move, move);
    }
  }

  lemma RunOfOne(r: Race, a: Action)
    ensures RunRace(r, [a]) == Act(r, a)
  {
    assert [a][..0] == [];
    assert RunRace(r, []) == r;
  }

  /** The lookup that finds the bill UNPAID. */
  lemma LookupPasses(r: Race, c: nat, record: BillingRecord)
    requires c < |r.calls| && r.calls[c].stage == (if record.InMock? then SeekMock else SeekDemo)
    requires r.calls[c].dto.billNumber != "" && r.calls[c].dto.amount.NoAmount?
    requires LookupByNumber(r.t, r.calls[c].dto.billNumber) == Some(record) && BillAt(r.t, record).status == UNPAID
    ensures var a, pair := Advance(c, Unreachable), BillAt(r.t, record).pair;
      PassesCheck(r, a, pair) && Act(r, a) == CheckAndSend(r, c, record, BillAt(r.t, record))
  {
  }

  function ToSending(dto: CreatePaymentDto, actor: Actor, record: BillingRecord): seq<Action> {
    ToLookup(0, dto, actor, record) + [Advance(0, Unreachable)]
  }

  lemma FirstIsSent(t: Tables, dto: CreatePaymentDto, actor: Actor, record: BillingRecord)
    requires Fresh(t) && actor.sub != "" && dto.billNumber != "" && dto.amount.NoAmount?
    requires LookupByNumber(t, dto.billNumber) == Some(record)
    ensures var q := RunRace(Idle(t), ToSending(dto, actor, record));
      && q.t.mock == t.mock && q.t.demo == t.demo && q.t.payments == []
      && |q.calls| == 1 && q.calls[0].dto == dto && UnderWay(q.calls[0].stage, BillAt(t, record).pair)
  {
    var r := RunRace(Idle(t), ToLookup(0, dto, actor, record));
    GetsToLookup(Idle(t), dto, actor, record);
    LookupPasses(r, 0, record);
    RunThenAct(Idle(t), ToLookup(0, dto, actor, record), Advance(0, Unreachable), BillAt(t, record).pair);
  }

  lemma SecondOverlaps(q: Race, dto: CreatePaymentDto, actor: Actor, record: BillingRecord)
    requires q.t.payments == [] && |q.calls| == 1 && actor.sub != "" && dto.billNumber != "" && dto.amount.NoAmount?
    requires LookupByNumber(q.t, dto.billNumber) == Some(record) && BillAt(q.t, record).status == UNPAID
    requires UnderWay(q.calls[0].stage, BillAt(q.t, record).pair)
    requires q.calls[0].dto.idempotencyKey != dto.idempotencyKey
    ensures Overlaps(
      RunRace(q, ToLookup(1, dto, actor, record)), Advance(1, Unreachable), BillAt(q.t, record).pair)
  {
    var u := RunRace(q, ToLookup(1, dto, actor, record));
    GetsToLookup(q, dto, actor, record);
    LookupPasses(u, 1, record);
    assert MayStore(u, 0, BillAt(q.t, record).pair);
  }

  /** What serial payments guarantee does not survive interleaving: in any tables, the bill that a number names
      can be charged twice by two concurrent calls with different keys, without any retry. */
  lemma RaceCanChargeTwice(t: Tables, first: CreatePaymentDto, second: CreatePaymentDto, actor: Actor)
    requires Fresh(t) && actor.sub != "" && first.billNumber == second.billNumber != ""
    requires first.amount.NoAmount? && second.amount.NoAmount? && first.idempotencyKey != second.idempotencyKey
    requires LookupByNumber(t, first.billNumber).Some?
    ensures exists actions :: Successes(
      RunRace(Idle(t), actions), BillAt(t, LookupByNumber(t, first.billNumber).value).pair) >= 2
  {
    var record := LookupByNumber(t, first.billNumber).value;
    var pair := BillAt(t, record).pair;
    var sent, sought := ToSending(first, actor, record), ToLookup(1, second, actor, record);
    FirstIsSent(t, first, actor, record);
    PaymentsDoNotMatter(t, RunRace(Idle(t), sent).t);
    SecondOverlaps(RunRace(Idle(t), sent), second, actor, record);
    OverlapAfter(t, sent, sought, Advance(1, Unreachable), pair);
  }

  lemma OverlapAfter(t: Tables, sent: seq<Action>, sought: seq<Action>, a: Action, pair: Pair)
    requires Fresh(t) && Overlaps(RunRace(RunRace(Idle(t), sent), sought), a, pair)
    ensures exists actions :: Successes(RunRace(Idle(t), actions), pair) >= 2
  {
    RunSplit(Idle(t), sent, sought);
    var more := OverlapCharges(t, sent + sought, a, pair);
    RunThenAct(Idle(t), sent + sought, a, pair);
    RunSplit(Idle(t), sent + sought + [a], more);
  }
}
