/** Money under concurrency: what the SUCCESS payments of any interleaving collect against what the PAID
    bills settle, and exactly when one bill is charged more than once. */
module PaymentRaceLedger {
  import opened Outcomes
  import opened Sums
  import opened BillingTables
  import opened PaymentService
  import opened PaymentRuns
  import opened PaymentLedger
  import opened PaymentHistory
  import opened PaymentRaces

  /** The call stored a successful payment and has not marked its bill: it is about to, or its save of the
      bill was rejected. */
  predicate Owes(stage: Stage) {
    stage.Marking? || stage.Unmarked?
  }

  function OwedWeight(v: Valuation): (w: Call -> int)
    ensures forall c :: w(c) == if Owes(c.stage) then v(BillCharge(c.stage.bill)) else 0
  {
    (c: Call) => if Owes(c.stage) then v(BillCharge(c.stage.bill)) else 0
  }

  /** The worth of all bills still owed. */
  function Owed(r: Race, v: Valuation): int {
    Sum(r.calls, OwedWeight(v))
  }

  predicate Marks(r: Race, a: Action) {
    a.Advance? && CanMove(r, a.call) && r.calls[a.call].stage.Marking?
  }

  /** The worth of a bill that is marked although it is PAID already. */
  function MarkedAgain(r: Race, a: Action, v: Valuation): int {
    if Marks(r, a) && BillAt(r.t, r.calls[a.call].stage.record).status == PAID then
      v(BillCharge(r.calls[a.call].stage.bill))
    else 0
  }

  function RunMarkedAgain(t: Tables, actions: seq<Action>, v: Valuation): int {
    if actions == [] then 0
    else
      var front := actions[..|actions| - 1];
      RunMarkedAgain(t, front, v) + MarkedAgain(RunRace(Idle(t), front), actions[|actions| - 1], v)
  }

  // ---- the kinds of action

  /** The action stores a successful payment of the pair. */
  ghost predicate StoresSuccess(r: Race, a: Action) {
    a.Advance? && Storing(r, a.call) && r.calls[a.call].stage.answer.status.SUCCESS?
  }

  /** No successful payment, bill or owed bill changes. */
  ghost predicate Quiet(r: Race, q: Race) {
    && q.t.mock == r.t.mock && q.t.demo == r.t.demo
    && (q.t.payments == r.t.payments
        || exists p: Payment :: !p.status.SUCCESS? && q.t.payments == r.t.payments + [p])
    && |r.calls| <= |q.calls| <= |r.calls| + 1
    && (|q.calls| > |r.calls| ==> q.calls[..|r.calls|] == r.calls && !Owes(q.calls[|r.calls|].stage))
    && (|q.calls| == |r.calls| ==> q.calls == r.calls || exists c: nat ::
          && c < |r.calls| && q.calls == r.calls[c := q.calls[c]]
          && SameDebt(r.calls[c].stage, q.calls[c].stage))
  }

  predicate SameDebt(before: Stage, after: Stage) {
    (Owes(before) <==> Owes(after)) && (Owes(before) ==> before.bill == after.bill)
  }

  lemma StageIsQuiet(r: Race, c: nat, stage: Stage)
    requires c < |r.calls| && SameDebt(r.calls[c].stage, stage)
    ensures Quiet(r, AtStage(r, c, stage))
  {
    var q := AtStage(r, c, stage);
    assert q.calls == r.calls[c := q.calls[c]] && SameDebt(r.calls[c].stage, q.calls[c].stage);
  }

  lemma SendIsQuiet(r: Race, c: nat, record: BillingRecord, bill: Bill)
    requires c < |r.calls| && !Owes(r.calls[c].stage)
    ensures Quiet(r, CheckAndSend(r, c, record, bill))
  {
    var q := CheckAndSend(r, c, record, bill);
    assert q.calls == r.calls[c := q.calls[c]] && SameDebt(r.calls[c].stage, q.calls[c].stage);
  }

  lemma SaveIsQuiet(r: Race, c: nat)
    requires c < |r.calls| && r.calls[c].stage.Saving? && r.calls[c].stage.answer.Answered?
    requires Storing(r, c) ==> !r.calls[c].stage.answer.status.SUCCESS?
    ensures Quiet(r, Save(r, c))
  {
    var q, s := Save(r, c), r.calls[c].stage;
    if Storing(r, c) {
      var p := NewPayment(s.bill, r.calls[c].dto, r.calls[c].actor, s.answer);
      assert !p.status.SUCCESS? && q.t.payments == r.t.payments + [p];
    }
    assert q.calls == r.calls[c := q.calls[c]] && SameDebt(r.calls[c].stage, q.calls[c].stage);
  }

  lemma SeekIsQuiet(r: Race, c: nat, answer: BbpsAnswer)
    requires CanMove(r, c) && (r.calls[c].stage.SeekMock? || r.calls[c].stage.SeekDemo?)
    ensures Quiet(r, Move(r, c, answer))
  {
    var inMock := r.calls[c].stage.SeekMock?;
    var bills := if inMock then r.t.mock else r.t.demo;
    var row := SoughtRow(bills, r.calls[c].dto);
    if row.Some? {
      SendIsQuiet(r, c, if inMock then InMock(row.value) else InDemo(row.value), bills[row.value]);
    } else {
      StageIsQuiet(r, c, if inMock then SeekDemo else Returned(Err(BillNotFound), None));
    }
  }

  lemma AnswerIsQuiet(r: Race, c: nat, answer: BbpsAnswer)
    requires CanMove(r, c) && r.calls[c].stage.Waiting?
    ensures Quiet(r, Answer(r, c, answer))
  {
    var q := Answer(r, c, answer);
    assert q.calls == r.calls[c := q.calls[c]] && SameDebt(r.calls[c].stage, q.calls[c].stage);
  }

  lemma MoveIsQuiet(r: Race, c: nat, answer: BbpsAnswer)
    requires CanMove(r, c) && !r.calls[c].stage.Marking? && !StoresSuccess(r, Advance(c, answer))
    ensures Quiet(r, Move(r, c, answer))
  {
    var stage := r.calls[c].stage;
    if stage.SeekMock? || stage.SeekDemo? {
      SeekIsQuiet(r, c, answer);
    } else if stage.Waiting? {
      AnswerIsQuiet(r, c, answer);
    } else if stage.Saving? {
      SaveIsQuiet(r, c);
    } else if Finished(stage) {
      assert Move(r, c, answer) == r;
    } else {
      StageIsQuiet(r, c, Move(r, c, answer).calls[c].stage);
    }
  }

  lemma ActIsQuiet(r: Race, a: Action)
    requires Inv(r) && !StoresSuccess(r, a) && !Marks(r, a)
    ensures Quiet(r, Act(r, a))
  {
    var q := Act(r, a);
    match a
    case Begin(_, _) =>
    case Advance(c, answer) =>
      if CanMove(r, c) {
        MoveIsQuiet(r, c, answer);
      }
    case Reject(c) =>
      if c < |r.calls| && !Finished(r.calls[c].stage) {
        assert q.calls == r.calls[c := q.calls[c]];
        assert SameDebt(r.calls[c].stage, q.calls[c].stage);
      }
  }

  // ---- conservation

  ghost function Balance(r: Race, v: Valuation): int {
    Collected(r.t, v) - Settled(r.t, v) - Owed(r, v)
  }

  lemma QuietBalances(r: Race, q: Race, v: Valuation)
    requires Quiet(r, q)
    ensures Balance(q, v) == Balance(r, v)
  {
    if q.t.payments != r.t.payments {
      var p: Payment :| !p.status.SUCCESS? && q.t.payments == r.t.payments + [p];
      SumAppend(r.t.payments, p, SuccessWeight(v));
    }
    if |q.calls| > |r.calls| {
      assert q.calls == r.calls + [q.calls[|r.calls|]];
      SumAppend(r.calls, q.calls[|r.calls|], OwedWeight(v));
    } else if q.calls != r.calls {
      var c: nat :| c < |r.calls| && q.calls == r.calls[c := q.calls[c]]
          && SameDebt(r.calls[c].stage, q.calls[c].stage);
      SumUpdate(r.calls, c, q.calls[c], OwedWeight(v));
    }
  }

  lemma StoreBalances(r: Race, c: nat, v: Valuation)
    requires Storing(r, c) && r.calls[c].stage.answer.status.SUCCESS?
    ensures Balance(Save(r, c), v) == Balance(r, v)
  {
    var q, call := Save(r, c), r.calls[c];
    SumAppend(r.t.payments, NewPayment(call.stage.bill, call.dto, call.actor, call.stage.answer), SuccessWeight(v));
    SumUpdate(r.calls, c, q.calls[c], OwedWeight(v));
  }

  lemma MarkBalances(r: Race, a: Action, v: Valuation)
    requires Inv(r) && Marks(r, a)
    ensures Balance(Mark(r, a.call), v) == Balance(r, v) + MarkedAgain(r, a, v)
  {
    var q, s := Mark(r, a.call), r.calls[a.call].stage;
    assert StageOk(r, a.call);
    assert s.bill.(status := PAID) == BillAt(r.t, s.record).(status := PAID);
    assert q.t == MarkPaid(r.t, s.record);
    MarkPaidSettles(r.t, s.record, v);
    SumUpdate(r.calls, a.call, q.calls[a.call], OwedWeight(v));
  }

  lemma ActBalances(r: Race, a: Action, v: Valuation)
    requires Inv(r)
    ensures Balance(Act(r, a), v) == Balance(r, v) + MarkedAgain(r, a, v)
  {
    var q := Act(r, a);
    if StoresSuccess(r, a) {
      assert q == Save(r, a.call);
      StoreBalances(r, a.call, v);
    } else if Marks(r, a) {
      assert q == Mark(r, a.call);
      MarkBalances(r, a, v);
    } else {
      ActIsQuiet(r, a);
      QuietBalances(r, q, v);
    }
  }

  /** Conservation in every interleaving, however charges are valued: what is collected is what the PAID
      bills settle, plus what is owed by calls at or rejected at the save of their bill, plus the bills that
      were marked again. Nothing is assumed about how bills share numbers or pairs. */
  lemma {:induction false} RaceMoneyIsConserved(t: Tables, actions: seq<Action>, v: Valuation)
    requires Fresh(t)
    ensures var r := RunRace(Idle(t), actions);
      Collected(r.t, v) == Settled(r.t, v) + Owed(r, v) + RunMarkedAgain(t, actions, v)
  {
    if actions == [] {
      FreshIsEmpty(t, v);
    } else {
      var front := actions[..|actions| - 1];
      RaceMoneyIsConserved(t, front, v);
      EveryInterleavingKeeps(t, front);
      ActBalances(RunRace(Idle(t), front), actions[|actions| - 1], v);
    }
  }

  // ---- exactly when a pair is charged again

  ghost predicate IsOwed(r: Race, pair: Pair) {
    exists c | 0 <= c < |r.calls| :: Owes(r.calls[c].stage) && r.calls[c].stage.bill.pair == pair
  }

  /** A record of the pair is PAID, or a call owes it. */
  ghost predicate IsCharged(r: Race, pair: Pair) {
    PaidAnywhere(r.t, pair) || IsOwed(r, pair)
  }

  /** A successful payment of the pair is stored although a record of it is PAID or owed. */
  ghost predicate StoresAgain(r: Race, a: Action, pair: Pair) {
    StoresSuccess(r, a) && r.calls[a.call].stage.bill.pair == pair && IsCharged(r, pair)
  }

  ghost function StoredAgain(t: Tables, actions: seq<Action>, pair: Pair): nat {
    if actions == [] then 0
    else
      var front := actions[..|actions| - 1];
      StoredAgain(t, front, pair) + if StoresAgain(RunRace(Idle(t), front), actions[|actions| - 1], pair) then 1 else 0
  }

  function Successes(r: Race, pair: Pair): int {
    Collected(r.t, CountOf(pair))
  }

  lemma QuietCharges(r: Race, q: Race, pair: Pair)
    requires Quiet(r, q)
    ensures Successes(q, pair) == Successes(r, pair) && (IsCharged(q, pair) <==> IsCharged(r, pair))
  {
    if q.t.payments != r.t.payments {
      var p: Payment :| !p.status.SUCCESS? && q.t.payments == r.t.payments + [p];
      SumAppend(r.t.payments, p, SuccessWeight(CountOf(pair)));
    }
    QuietDebts(r, q, pair);
  }

  lemma QuietDebts(r: Race, q: Race, pair: Pair)
    requires Quiet(r, q)
    ensures IsOwed(q, pair) <==> IsOwed(r, pair)
  {
    forall d | 0 <= d < |r.calls| ensures SameDebt(r.calls[d].stage, q.calls[d].stage) {
      if |q.calls| > |r.calls| {
        assert q.calls[d] == q.calls[..|r.calls|][d] == r.calls[d];
      }
    }
    if IsOwed(r, pair) {
      var d :| 0 <= d < |r.calls| && Owes(r.calls[d].stage) && r.calls[d].stage.bill.pair == pair;
      assert SameDebt(r.calls[d].stage, q.calls[d].stage);
      assert Owes(q.calls[d].stage) && q.calls[d].stage.bill.pair == pair;
    }
    if IsOwed(q, pair) {
      var d :| 0 <= d < |q.calls| && Owes(q.calls[d].stage) && q.calls[d].stage.bill.pair == pair;
      assert d < |r.calls| && SameDebt(r.calls[d].stage, q.calls[d].stage);
    }
  }

  lemma StoreCharges(r: Race, c: nat, pair: Pair)
    requires Storing(r, c) && r.calls[c].stage.answer.status.SUCCESS?
    ensures var q, mine := Save(r, c), r.calls[c].stage.bill.pair == pair;
      && Successes(q, pair) == Successes(r, pair) + (if mine then 1 else 0)
      && (IsCharged(q, pair) <==> IsCharged(r, pair) || mine)
  {
    var q, call := Save(r, c), r.calls[c];
    SumAppend(
      r.t.payments, NewPayment(call.stage.bill, call.dto, call.actor, call.stage.answer), SuccessWeight(CountOf(pair)));
    assert q.calls[c].stage.Marking? && q.calls[c].stage.bill == call.stage.bill;
    if IsOwed(r, pair) {
      var d :| 0 <= d < |r.calls| && Owes(r.calls[d].stage) && r.calls[d].stage.bill.pair == pair;
      assert q.calls[d] == r.calls[d];
    }
  }

  lemma MarkCharges(r: Race, c: nat, pair: Pair)
    requires Inv(r) && c < |r.calls| && r.calls[c].stage.Marking?
    ensures CanMove(r, c)
    ensures Successes(Mark(r, c), pair) == Successes(r, pair)
    ensures IsCharged(Mark(r, c), pair) <==> IsCharged(r, pair)
  {
    var s := r.calls[c].stage;
    assert StageOk(r, c);
    assert s.bill.(status := PAID) == BillAt(r.t, s.record).(status := PAID);
    var q := Mark(r, c);
    assert q.t == MarkPaid(r.t, s.record);
    MarkPaidPays(r.t, s.record);
    if IsOwed(r, pair) {
      var d :| 0 <= d < |r.calls| && Owes(r.calls[d].stage) && r.calls[d].stage.bill.pair == pair;
      if d != c {
        assert q.calls[d] == r.calls[d];
      }
    }
    if IsOwed(q, pair) {
      var d :| 0 <= d < |q.calls| && Owes(q.calls[d].stage) && q.calls[d].stage.bill.pair == pair;
      assert q.calls[d] == r.calls[d];
    }
  }

  ghost function Unit(b: bool): nat {
    if b then 1 else 0
  }

  lemma ActCharges(r: Race, a: Action, pair: Pair)
    requires Inv(r)
    ensures Successes(Act(r, a), pair) - Unit(IsCharged(Act(r, a), pair))
         == Successes(r, pair) - Unit(IsCharged(r, pair)) + Unit(StoresAgain(r, a, pair))
    ensures IsCharged(r, pair) ==> IsCharged(Act(r, a), pair)
  {
    if StoresSuccess(r, a) {
      StoreCharges(r, a.call, pair);
    } else if Marks(r, a) {
      MarkCharges(r, a.call, pair);
    } else {
      ActIsQuiet(r, a);
      QuietCharges(r, Act(r, a), pair);
    }
  }

  /** In every interleaving the SUCCESS payments of a pair are one for its PAID record or for a call still at,
      or rejected at, the save of the bill, plus the payments stored while there was one already. So the pair
      is charged at most once if and only if no payment was stored then. */
  lemma {:induction false} RaceSurplusIsStoredAgain(t: Tables, actions: seq<Action>, pair: Pair)
    requires Fresh(t)
    ensures var r := RunRace(Idle(t), actions);
      && Successes(r, pair) == Unit(IsCharged(r, pair)) + StoredAgain(t, actions, pair)
      && (StoredAgain(t, actions, pair) > 0 ==> IsCharged(r, pair))
      && (Successes(r, pair) <= 1 <==> StoredAgain(t, actions, pair) == 0)
  {
    if actions == [] {
      FreshIsEmpty(t, CountOf(pair));
      assert !PaidAnywhere(t, pair);
    } else {
      var front := actions[..|actions| - 1];
      RaceSurplusIsStoredAgain(t, front, pair);
      EveryInterleavingKeeps(t, front);
      ActCharges(RunRace(Idle(t), front), actions[|actions| - 1], pair);
    }
  }

  lemma SuccessesCount(payments: seq<Payment>, pair: Pair)
    ensures Sum(payments, SuccessWeight(CountOf(pair))) >= 1 <==> HasSuccess(payments, pair)
  {
    var w := SuccessWeight(CountOf(pair));
    if HasSuccess(payments, pair) {
      var i :| 0 <= i < |payments| && payments[i].pair == pair && payments[i].status.SUCCESS?;
      SumAtLeast(payments, w, i);
    } else {
      SumZero(payments, w);
    }
  }

  /** In every interleaving, rejected awaits included, a pair has a SUCCESS payment exactly when a record of it
      is PAID or owed. So PAID without SUCCESS never happens, and SUCCESS without PAID exactly while the save
      of the bill has not run or was rejected. */
  lemma SuccessIffPaidOrOwed(t: Tables, actions: seq<Action>, pair: Pair)
    requires Fresh(t)
    ensures var r := RunRace(Idle(t), actions);
      HasSuccess(r.t.payments, pair) <==> PaidAnywhere(r.t, pair) || IsOwed(r, pair)
  {
    RaceSurplusIsStoredAgain(t, actions, pair);
    SuccessesCount(RunRace(Idle(t), actions).t.payments, pair);
  }
}
