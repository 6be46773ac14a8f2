/** Concurrent payments: any number of `create` calls, each split at its awaits
    (bill-payment/payment/payment.service.ts), interleaved in any order. A call may also have an await
    rejected, or never be scheduled again. */
module PaymentRaces {
  import opened Outcomes
  import opened RbacConstants
  import opened BillingTables
  import opened PaymentService
  import opened PaymentRuns
  import opened PaymentHistory

  type Reply = Result<Receipt, PaymentError>

  /** Which await a call is at, with what it has read so far; Unmarked is a call whose save of the paid bill
      was rejected. */
  datatype Stage =
    | Started
    | ReplayMock(id: nat, existing: Payment)
    | ReplayDemo(id: nat, existing: Payment)
    | SeekMock
    | SeekDemo
    | Waiting(record: BillingRecord, bill: Bill, sending: nat)
    | Saving(record: BillingRecord, bill: Bill, sending: nat, answer: BbpsAnswer)
    | Marking(record: BillingRecord, bill: Bill, sending: nat, id: nat)
    | Unmarked(record: BillingRecord, bill: Bill, sending: nat, id: nat)
    | Returned(reply: Reply, sent: Option<nat>)
    | Conflict(sending: nat)
    | Broken(sent: Option<nat>)

  datatype Call = Call(dto: CreatePaymentDto, actor: Actor, stage: Stage)

  /** One request on the payment network: the call that sent it, and its answer once there is one. */
  datatype Sending = Sending(call: nat, key: string, owner: string, pair: Pair, amount: int, answer: Option<BbpsAnswer>)

  /** The tables, the network's log, for each payment row the sending it was stored for, and the calls. */
  datatype Race = Race(t: Tables, log: seq<Sending>, origin: seq<nat>, calls: seq<Call>)

  datatype Action =
    | Begin(dto: CreatePaymentDto, actor: Actor)
    | Advance(call: nat, answer: BbpsAnswer)
    | Reject(call: nat)

  function AtStage(r: Race, c: nat, stage: Stage): Race
    requires c < |r.calls|
  {
    r.(calls := r.calls[c := r.calls[c].(stage := stage)])
  }

  function FirstStage(dto: CreatePaymentDto, actor: Actor): Stage {
    if actor.sub == "" then Returned(Err(Unauthorized), None)
    else if !Complete(dto) then Returned(Err(InvalidPaymentRequest), None)
    else Started
  }

  function ReplayReply(existing: Payment, id: nat, same: bool): Reply {
    if same then Ok(ReceiptFor(id, existing, true)) else Err(IdempotencyKeyReused)
  }

  predicate SameCharge(existing: Payment, bill: Bill) {
    existing.pair == bill.pair && existing.amount == bill.amount
  }

  /** After the key lookup. */
  function KeyRead(r: Race, c: nat): Stage
    requires c < |r.calls|
  {
    var dto, actor := r.calls[c].dto, r.calls[c].actor;
    match RowByKey(r.t.payments, dto.idempotencyKey)
    case None => SeekMock
    case Some(id) =>
      var existing := r.t.payments[id];
      var refusal := IdempotentPaymentOwnedByActor(existing, actor);
      if refusal.Some? then Returned(Err(refusal.value), None)
      else if dto.billNumber != "" then ReplayMock(id, existing)
      else Returned(ReplayReply(existing, id, SamePaymentRequest(r.t, dto, existing)), None)
  }

  function SoughtRow(bills: seq<Bill>, dto: CreatePaymentDto): (row: Option<nat>)
    ensures row.Some? ==> row.value < |bills|
  {
    if dto.billNumber != "" then RowByNumber(bills, dto.billNumber) else RowByPair(bills, DtoPair(dto))
  }

  /** The checks on the bill just read and, when they pass, the request to the network. */
  function CheckAndSend(r: Race, c: nat, record: BillingRecord, bill: Bill): Race
    requires c < |r.calls|
  {
    var dto := r.calls[c].dto;
    if bill.status != UNPAID then AtStage(r, c, Returned(Err(BillNotPayable), None))
    else if !AmountMatches(dto, bill) then AtStage(r, c, Returned(Err(AmountMismatch), None))
    else
      var sending := Sending(c, dto.idempotencyKey, r.calls[c].actor.sub, bill.pair, bill.amount, None);
      AtStage(r, c, Waiting(record, bill, |r.log|))
        .(t := Dispatch(r.t, bill.pair, bill.amount), log := r.log + [sending])
  }

  function Answer(r: Race, c: nat, answer: BbpsAnswer): Race
    requires c < |r.calls| && r.calls[c].stage.Waiting? && r.calls[c].stage.sending < |r.log|
  {
    var s := r.calls[c].stage;
    var next :=
      if answer.Unreachable? then Returned(Err(BbpsUnreachable), Some(s.sending))
      else Saving(s.record, s.bill, s.sending, answer);
    AtStage(r, c, next).(log := r.log[s.sending := r.log[s.sending].(answer := Some(answer))])
  }

  /** The insert, which the unique index on the key may refuse. */
  function Save(r: Race, c: nat): Race
    requires c < |r.calls| && r.calls[c].stage.Saving? && r.calls[c].stage.answer.Answered?
  {
    var call := r.calls[c];
    var s := call.stage;
    if RowByKey(r.t.payments, call.dto.idempotencyKey).Some? then AtStage(r, c, Conflict(s.sending))
    else
      var id := |r.t.payments|;
      var payment := NewPayment(s.bill, call.dto, call.actor, s.answer);
      var next :=
        if s.answer.status.SUCCESS? then Marking(s.record, s.bill, s.sending, id)
        else Returned(Ok(ReceiptFor(id, payment, false)), Some(s.sending));
      AtStage(r, c, next).(t := r.t.(payments := r.t.payments + [payment]), origin := r.origin + [s.sending])
  }

  /** The whole-row save of the bill as it was read, now PAID. */
  function Mark(r: Race, c: nat): Race
    requires c < |r.calls| && r.calls[c].stage.Marking?
    requires Exists(r.t, r.calls[c].stage.record) && r.calls[c].stage.id < |r.t.payments|
  {
    var s := r.calls[c].stage;
    AtStage(r, c, Returned(Ok(ReceiptFor(s.id, r.t.payments[s.id], false)), Some(s.sending)))
      .(t := SaveBill(r.t, s.record, s.bill.(status := PAID)))
  }

  function SentBy(stage: Stage): Option<nat> {
    match stage
    case Waiting(_, _, sending) => Some(sending)
    case Saving(_, _, sending, _) => Some(sending)
    case Marking(_, _, sending, _) => Some(sending)
    case Unmarked(_, _, sending, _) => Some(sending)
    case Conflict(sending) => Some(sending)
    case Returned(_, sent) => sent
    case Broken(sent) => sent
    case _ => None
  }

  predicate Finished(stage: Stage) {
    stage.Returned? || stage.Conflict? || stage.Unmarked? || stage.Broken?
  }

  function Rejected(stage: Stage): Stage {
    match stage
    case Marking(record, bill, sending, id) => Unmarked(record, bill, sending, id)
    case _ => Broken(SentBy(stage))
  }

  /** What the stage needs of the tables before it can move; every reachable stage has it. */
  predicate CanMove(r: Race, c: nat) {
    && c < |r.calls|
    && match r.calls[c].stage
       case Waiting(_, _, sending) => sending < |r.log|
       case Saving(_, _, _, answer) => answer.Answered?
       case Marking(record, _, _, id) => Exists(r.t, record) && id < |r.t.payments|
       case _ => true
  }

  function Move(r: Race, c: nat, answer: BbpsAnswer): Race
    requires CanMove(r, c)
  {
    var dto := r.calls[c].dto;
    match r.calls[c].stage
    case Started => AtStage(r, c, KeyRead(r, c))
    case ReplayMock(id, existing) =>
      (match RowByNumber(r.t.mock, dto.billNumber)
       case Some(row) => AtStage(r, c, Returned(ReplayReply(existing, id, SameCharge(existing, r.t.mock[row])), None))
       case None => AtStage(r, c, ReplayDemo(id, existing)))
    case ReplayDemo(id, existing) =>
      (match RowByNumber(r.t.demo, dto.billNumber)
       case Some(row) => AtStage(r, c, Returned(ReplayReply(existing, id, SameCharge(existing, r.t.demo[row])), None))
       case None => AtStage(r, c, Returned(Err(IdempotencyKeyReused), None)))
    case SeekMock =>
      (match SoughtRow(r.t.mock, dto)
       case Some(row) => CheckAndSend(r, c, InMock(row), r.t.mock[row])
       case None => AtStage(r, c, SeekDemo))
    case SeekDemo =>
      (match SoughtRow(r.t.demo, dto)
       case Some(row) => CheckAndSend(r, c, InDemo(row), r.t.demo[row])
       case None => AtStage(r, c, Returned(Err(BillNotFound), None)))
    case Waiting(_, _, _) => Answer(r, c, answer)
    case Saving(_, _, _, _) => Save(r, c)
    case Marking(_, _, _, _) => Mark(r, c)
    case _ => r
  }

  function Act(r: Race, a: Action): Race {
    match a
    case Begin(dto, actor) => r.(calls := r.calls + [Call(dto, actor, FirstStage(dto, actor))])
    case Advance(c, answer) => if CanMove(r, c) then Move(r, c, answer) else r
    case Reject(c) =>
      if c < |r.calls| && !Finished(r.calls[c].stage) then AtStage(r, c, Rejected(r.calls[c].stage)) else r
  }

  function RunRace(r: Race, actions: seq<Action>): Race {
    if actions == [] then r else Act(RunRace(r, actions[..|actions| - 1]), actions[|actions| - 1])
  }

  function Idle(t: Tables): Race { Race(t, [], [], []) }

  // ---- what every interleaving keeps

  /** The row was stored for its sending: same key, owner and charge, and the answer that sending got. */
  ghost predicate RowMatches(payment: Payment, sending: Sending) {
    && payment.idempotencyKey == sending.key && payment.keycloakUserId == sending.owner
    && payment.pair == sending.pair && payment.amount == sending.amount
    && sending.answer == Some(Answered(payment.status, payment.bbpsReferenceId))
  }

  ghost predicate RowsHaveOrigins(r: Race) {
    && |r.origin| == |r.t.payments|
    && (forall i | 0 <= i < |r.origin| :: r.origin[i] < |r.log| && RowMatches(r.t.payments[i], r.log[r.origin[i]]))
    && (forall i, j | 0 <= i < j < |r.origin| :: r.origin[i] != r.origin[j])
  }

  /** A sending belongs to one call, which remembers it. */
  ghost predicate SendingsHaveCalls(r: Race) {
    && |r.log| == |r.t.dispatched|
    && forall k | 0 <= k < |r.log| ::
         && r.log[k].call < |r.calls|
         && SentBy(r.calls[r.log[k].call].stage) == Some(k)
         && r.t.dispatched[k] == BbpsRequest(r.log[k].pair, r.log[k].amount)
  }

  ghost predicate PaidHasSuccess(r: Race) {
    forall pair :: PaidAnywhere(r.t, pair) ==> HasSuccess(r.t.payments, pair)
  }

  ghost predicate Holds(r: Race, record: BillingRecord, bill: Bill) {
    Exists(r.t, record) && SameBill(bill, BillAt(r.t, record))
  }

  ghost predicate Sends(r: Race, c: nat, k: nat)
    requires c < |r.calls|
  {
    && k < |r.log| && r.log[k].call == c
    && r.log[k].key == r.calls[c].dto.idempotencyKey && r.log[k].owner == r.calls[c].actor.sub
  }

  ghost predicate SendsBill(r: Race, c: nat, k: nat, bill: Bill)
    requires c < |r.calls|
  {
    Sends(r, c, k) && r.log[k].pair == bill.pair && r.log[k].amount == bill.amount
  }

  ghost predicate KeyTaken(r: Race, key: string) {
    exists i | 0 <= i < |r.t.payments| :: r.t.payments[i].idempotencyKey == key
  }

  ghost predicate StageOk(r: Race, c: nat)
    requires c < |r.calls|
  {
    match r.calls[c].stage
    case Waiting(record, bill, k) =>
      Holds(r, record, bill) && SendsBill(r, c, k, bill) && k !in r.origin && r.log[k].answer.None?
    case Saving(record, bill, k, answer) =>
      && Holds(r, record, bill) && SendsBill(r, c, k, bill) && k !in r.origin
      && answer.Answered? && r.log[k].answer == Some(answer)
    case Marking(record, bill, k, id) =>
      && Holds(r, record, bill) && SendsBill(r, c, k, bill)
      && id < |r.t.payments| && id < |r.origin| && r.origin[id] == k
      && r.t.payments[id].status.SUCCESS? && r.t.payments[id].pair == bill.pair
    case Unmarked(record, bill, k, id) =>
      && Holds(r, record, bill) && SendsBill(r, c, k, bill)
      && id < |r.t.payments| && id < |r.origin| && r.origin[id] == k
      && r.t.payments[id].status.SUCCESS? && r.t.payments[id].pair == bill.pair
    case Conflict(k) =>
      Sends(r, c, k) && k !in r.origin && KeyTaken(r, r.calls[c].dto.idempotencyKey)
    case Returned(reply, sent) =>
      && (sent.Some? ==>
            && Sends(r, c, sent.value)
            && (if reply.Err? then reply.error == BbpsUnreachable && sent.value !in r.origin
                                   && r.log[sent.value].answer == Some(Unreachable)
                else && !reply.value.duplicate && reply.value.paymentId < |r.origin|
                     && r.origin[reply.value.paymentId] == sent.value))
      && (sent.None? && reply.Ok? ==> reply.value.duplicate && reply.value.paymentId < |r.t.payments|)
    case Broken(sent) => sent.Some? ==> Sends(r, c, sent.value)
    case ReplayMock(id, _) => id < |r.t.payments|
    case ReplayDemo(id, _) => id < |r.t.payments|
    case _ => true
  }

  ghost predicate Inv(r: Race) {
    && DistinctKeys(r.t.payments)
    && RowsHaveOrigins(r)
    && SendingsHaveCalls(r)
    && PaidHasSuccess(r)
    && (forall c | 0 <= c < |r.calls| :: StageOk(r, c))
  }

  /** Nothing a stage of another call relies on is lost. */
  ghost predicate Grows(r: Race, q: Race, c: nat) {
    && |q.calls| >= |r.calls| && (forall d | 0 <= d < |r.calls| && d != c :: q.calls[d] == r.calls[d])
    && SameBilling(r.t, q.t)
    && r.t.payments <= q.t.payments
    && |r.log| <= |q.log| && (forall k | 0 <= k < |r.log| && r.log[k].call != c :: q.log[k] == r.log[k])
    && r.origin <= q.origin
    && (forall i | |r.origin| <= i < |q.origin| :: q.origin[i] < |r.log| && r.log[q.origin[i]].call == c)
  }

  lemma SendingStays(r: Race, q: Race, c: nat, d: nat)
    requires Inv(r) && Grows(r, q, c) && d < |r.calls| && d != c && SentBy(r.calls[d].stage).Some?
    ensures var k := SentBy(r.calls[d].stage).value;
      && Sends(r, d, k) && k < |q.log| && q.log[k] == r.log[k] && (k in q.origin <==> k in r.origin)
  {
    var k := SentBy(r.calls[d].stage).value;
    assert StageOk(r, d);
    assert Sends(r, d, k);
    if k in q.origin {
      assert k in r.origin;
    }
  }

  lemma PaymentStaysOk(r: Race, q: Race, c: nat, d: nat)
    requires Inv(r) && Grows(r, q, c) && d < |r.calls| && d != c
    requires var stage := r.calls[d].stage;
      stage.Waiting? || stage.Saving? || stage.Marking? || stage.Unmarked?
    ensures StageOk(q, d)
  {
    var stage := r.calls[d].stage;
    assert q.calls[d] == r.calls[d];
    assert StageOk(r, d);
    SendingStays(r, q, c, d);
    HoldsSurvives(r, q, stage.record, stage.bill);
    if stage.Marking? || stage.Unmarked? {
      assert q.t.payments[stage.id] == r.t.payments[stage.id];
    }
  }

  lemma OthersStayOk(r: Race, q: Race, c: nat, d: nat)
    requires Inv(r) && Grows(r, q, c) && d < |r.calls| && d != c
    ensures StageOk(q, d)
  {
    var stage := r.calls[d].stage;
    if stage.Waiting? || stage.Saving? || stage.Marking? || stage.Unmarked? {
      PaymentStaysOk(r, q, c, d);
    } else {
      assert q.calls[d] == r.calls[d];
      assert StageOk(r, d);
      if SentBy(stage).Some? {
        SendingStays(r, q, c, d);
      }
      if stage.Conflict? {
        var i :| 0 <= i < |r.t.payments| && r.t.payments[i].idempotencyKey == r.calls[d].dto.idempotencyKey;
        assert q.t.payments[i] == r.t.payments[i];
      }
    }
  }

  lemma HoldsSurvives(r: Race, q: Race, record: BillingRecord, bill: Bill)
    requires Holds(r, record, bill) && SameBilling(r.t, q.t)
    ensures Holds(q, record, bill)
  {
    assert SameBill(BillAt(r.t, record), BillAt(q.t, record));
  }

  /** A move that only changes the call's own stage. */
  lemma QuietMove(r: Race, c: nat, stage: Stage)
    requires Inv(r) && c < |r.calls| && SentBy(stage) == SentBy(r.calls[c].stage)
    requires StageOk(AtStage(r, c, stage), c)
    ensures Inv(AtStage(r, c, stage))
  {
    var q := AtStage(r, c, stage);
    forall d | 0 <= d < |q.calls| ensures StageOk(q, d) {
      if d != c {
        OthersStayOk(r, q, c, d);
      }
    }
  }

  lemma BeginKeeps(r: Race, dto: CreatePaymentDto, actor: Actor)
    requires Inv(r)
    ensures Inv(Act(r, Begin(dto, actor)))
  {
    var q := Act(r, Begin(dto, actor));
    forall d | 0 <= d < |q.calls| ensures StageOk(q, d) {
      if d < |r.calls| {
        OthersStayOk(r, q, |r.calls|, d);
      }
    }
  }

  lemma RejectKeeps(r: Race, c: nat)
    requires Inv(r) && c < |r.calls| && !Finished(r.calls[c].stage)
    ensures Inv(AtStage(r, c, Rejected(r.calls[c].stage)))
  {
    assert StageOk(r, c);
    QuietMove(r, c, Rejected(r.calls[c].stage));
  }

  lemma SendKeeps(r: Race, c: nat, record: BillingRecord, bill: Bill)
    requires Inv(r) && c < |r.calls| && SentBy(r.calls[c].stage).None?
    requires Exists(r.t, record) && BillAt(r.t, record) == bill
    ensures Inv(CheckAndSend(r, c, record, bill))
  {
    var q := CheckAndSend(r, c, record, bill);
    if bill.status == UNPAID && AmountMatches(r.calls[c].dto, bill) {
      forall d | 0 <= d < |q.calls| ensures StageOk(q, d) {
        if d != c {
          OthersStayOk(r, q, c, d);
        }
      }
      assert PaidHasSuccess(q);
    } else {
      QuietMove(r, c, q.calls[c].stage);
    }
  }

  lemma AnswerKeeps(r: Race, c: nat, answer: BbpsAnswer)
    requires Inv(r) && c < |r.calls| && r.calls[c].stage.Waiting?
    requires r.calls[c].stage.sending < |r.log|
    ensures Inv(Answer(r, c, answer))
  {
    var q := Answer(r, c, answer);
    assert StageOk(r, c);
    forall d | 0 <= d < |q.calls| ensures StageOk(q, d) {
      if d != c {
        OthersStayOk(r, q, c, d);
      }
    }
    forall i | 0 <= i < |q.origin|
      ensures q.origin[i] < |q.log| && RowMatches(q.t.payments[i], q.log[q.origin[i]])
    {
      assert r.origin[i] in r.origin;
    }
  }

  ghost predicate Storing(r: Race, c: nat) {
    && c < |r.calls| && r.calls[c].stage.Saving? && r.calls[c].stage.answer.Answered?
    && RowByKey(r.t.payments, r.calls[c].dto.idempotencyKey).None?
  }

  lemma StoredRowsKeep(r: Race, c: nat)
    requires Inv(r) && Storing(r, c)
    ensures var q := Save(r, c); DistinctKeys(q.t.payments) && RowsHaveOrigins(q)
  {
    var q, call := Save(r, c), r.calls[c];
    assert StageOk(r, c);
    var payment := NewPayment(call.stage.bill, call.dto, call.actor, call.stage.answer);
    assert RowMatches(payment, q.log[call.stage.sending]);
    forall i | 0 <= i < |r.origin| ensures q.origin[i] == r.origin[i] != call.stage.sending {
      assert r.origin[i] in r.origin;
    }
  }

  lemma StoredPaidKeep(r: Race, c: nat)
    requires Inv(r) && Storing(r, c)
    ensures PaidHasSuccess(Save(r, c))
  {
    var call := r.calls[c];
    SuccessAppend(r.t.payments, NewPayment(call.stage.bill, call.dto, call.actor, call.stage.answer));
  }

  lemma StoredStageOk(r: Race, c: nat)
    requires Inv(r) && Storing(r, c)
    ensures StageOk(Save(r, c), c)
  {
    assert StageOk(r, c);
  }

  lemma StoredOthersOk(r: Race, c: nat)
    requires Inv(r) && Storing(r, c)
    ensures forall d | 0 <= d < |Save(r, c).calls| && d != c :: StageOk(Save(r, c), d)
  {
    assert StageOk(r, c);
    forall d | 0 <= d < |Save(r, c).calls| && d != c ensures StageOk(Save(r, c), d) {
      OthersStayOk(r, Save(r, c), c, d);
    }
  }

  lemma SaveKeeps(r: Race, c: nat)
    requires Inv(r) && c < |r.calls| && r.calls[c].stage.Saving? && r.calls[c].stage.answer.Answered?
    ensures Inv(Save(r, c))
  {
    var q := Save(r, c);
    assert StageOk(r, c);
    if Storing(r, c) {
      StoredRowsKeep(r, c);
      StoredPaidKeep(r, c);
      StoredStageOk(r, c);
      StoredOthersOk(r, c);
    } else {
      RefusedKeeps(r, c);
    }
  }

  lemma RefusedKeeps(r: Race, c: nat)
    requires Inv(r) && c < |r.calls| && r.calls[c].stage.Saving?
    requires RowByKey(r.t.payments, r.calls[c].dto.idempotencyKey).Some?
    ensures Inv(AtStage(r, c, Conflict(r.calls[c].stage.sending)))
  {
    assert StageOk(r, c);
    assert KeyTaken(r, r.calls[c].dto.idempotencyKey);
    QuietMove(r, c, Conflict(r.calls[c].stage.sending));
  }

  lemma MarkKeeps(r: Race, c: nat)
    requires Inv(r) && c < |r.calls| && r.calls[c].stage.Marking?
    ensures CanMove(r, c) && Inv(Mark(r, c))
  {
    assert StageOk(r, c);
    var q := Mark(r, c);
    var s := r.calls[c].stage;
    assert s.bill.(status := PAID) == BillAt(r.t, s.record).(status := PAID);
    MarkPaidPays(r.t, s.record);
    forall d | 0 <= d < |q.calls| ensures StageOk(q, d) {
      if d != c {
        OthersStayOk(r, q, c, d);
      }
    }
    assert HasSuccess(r.t.payments, s.bill.pair);
  }

  lemma KeyReadKeeps(r: Race, c: nat)
    requires Inv(r) && c < |r.calls| && r.calls[c].stage.Started?
    ensures Inv(AtStage(r, c, KeyRead(r, c)))
  {
    QuietMove(r, c, KeyRead(r, c));
  }

  lemma ReplayMoveKeeps(r: Race, c: nat, answer: BbpsAnswer)
    requires Inv(r) && CanMove(r, c)
    requires r.calls[c].stage.ReplayMock? || r.calls[c].stage.ReplayDemo?
    ensures Inv(Move(r, c, answer))
  {
    assert StageOk(r, c);
    QuietMove(r, c, Move(r, c, answer).calls[c].stage);
  }

  lemma SeekMoveKeeps(r: Race, c: nat, answer: BbpsAnswer)
    requires Inv(r) && CanMove(r, c)
    requires r.calls[c].stage.SeekMock? || r.calls[c].stage.SeekDemo?
    ensures Inv(Move(r, c, answer))
  {
    var inMock := r.calls[c].stage.SeekMock?;
    var bills := if inMock then r.t.mock else r.t.demo;
    var row := SoughtRow(bills, r.calls[c].dto);
    if row.Some? {
      SendKeeps(r, c, if inMock then InMock(row.value) else InDemo(row.value), bills[row.value]);
    } else {
      QuietMove(r, c, if inMock then SeekDemo else Returned(Err(BillNotFound), None));
    }
  }

  lemma MoveKeeps(r: Race, c: nat, answer: BbpsAnswer)
    requires Inv(r) && CanMove(r, c)
    ensures Inv(Move(r, c, answer))
  {
    var stage := r.calls[c].stage;
    if stage.Started? {
      KeyReadKeeps(r, c);
    } else if stage.ReplayMock? || stage.ReplayDemo? {
      ReplayMoveKeeps(r, c, answer);
    } else if stage.SeekMock? || stage.SeekDemo? {
      SeekMoveKeeps(r, c, answer);
    } else if stage.Waiting? {
      AnswerKeeps(r, c, answer);
    } else if stage.Saving? {
      SaveKeeps(r, c);
    } else if stage.Marking? {
      MarkKeeps(r, c);
    }
  }

  lemma ActKeeps(r: Race, a: Action)
    requires Inv(r)
    ensures Inv(Act(r, a))
  {
    match a
    case Begin(dto, actor) => BeginKeeps(r, dto, actor);
    case Advance(c, answer) =>
      if CanMove(r, c) {
        MoveKeeps(r, c, answer);
      }
    case Reject(c) =>
      if c < |r.calls| && !Finished(r.calls[c].stage) {
        RejectKeeps(r, c);
      }
  }

  lemma {:induction false} EveryInterleavingKeeps(t: Tables, actions: seq<Action>)
    requires Fresh(t)
    ensures Inv(RunRace(Idle(t), actions))
  {
    if actions == [] {
      forall pair ensures !PaidAnywhere(t, pair) { }
    } else {
      EveryInterleavingKeeps(t, actions[..|actions| - 1]);
      ActKeeps(RunRace(Idle(t), actions[..|actions| - 1]), actions[|actions| - 1]);
    }
  }

  // ---- the guarantees

  /** A sending of a finished call that no row was stored for. */
  ghost predicate LeftNoRow(r: Race, k: nat)
    requires k < |r.log| && r.log[k].call < |r.calls|
  {
    Finished(r.calls[r.log[k].call].stage) && k !in r.origin
  }

  /** In every interleaving: one row per key; every row carries the key, owner, charge and answer of a
      sending of its own; a call sends at most once; and a sending that a finished call left without a
      row got no answer, or had an await rejected, or lost its key to the row of another call. */
  lemma RacesAreSafe(t: Tables, actions: seq<Action>)
    requires Fresh(t)
    ensures var r := RunRace(Idle(t), actions);
      && DistinctKeys(r.t.payments)
      && RowsHaveOrigins(r)
      && (forall k, l | 0 <= k < l < |r.log| :: r.log[k].call != r.log[l].call)
      && (forall k | 0 <= k < |r.log| :: r.log[k].call < |r.calls|)
      && (forall k | 0 <= k < |r.log| && LeftNoRow(r, k) ::
            || r.log[k].answer == Some(Unreachable)
            || r.calls[r.log[k].call].stage.Broken?
            || (r.calls[r.log[k].call].stage.Conflict?
                && exists i | 0 <= i < |r.t.payments| ::
                     r.t.payments[i].idempotencyKey == r.log[k].key && r.log[r.origin[i]].call != r.log[k].call))
  {
    EveryInterleavingKeeps(t, actions);
    var r := RunRace(Idle(t), actions);
    forall k, l | 0 <= k < l < |r.log| ensures r.log[k].call != r.log[l].call {
      assert SentBy(r.calls[r.log[k].call].stage) == Some(k);
      assert SentBy(r.calls[r.log[l].call].stage) == Some(l);
    }
    forall k | 0 <= k < |r.log| && LeftNoRow(r, k)
      ensures
        || r.log[k].answer == Some(Unreachable)
        || r.calls[r.log[k].call].stage.Broken?
        || (r.calls[r.log[k].call].stage.Conflict?
            && exists i | 0 <= i < |r.t.payments| ::
                 r.t.payments[i].idempotencyKey == r.log[k].key && r.log[r.origin[i]].call != r.log[k].call)
    {
      LostSending(r, k);
    }
  }

  lemma LostSending(r: Race, k: nat)
    requires Inv(r) && k < |r.log| && r.log[k].call < |r.calls| && LeftNoRow(r, k)
    ensures
      || r.log[k].answer == Some(Unreachable)
      || r.calls[r.log[k].call].stage.Broken?
      || (r.calls[r.log[k].call].stage.Conflict?
          && exists i | 0 <= i < |r.t.payments| ::
               r.t.payments[i].idempotencyKey == r.log[k].key && r.log[r.origin[i]].call != r.log[k].call)
  {
    var c := r.log[k].call;
    assert SentBy(r.calls[c].stage) == Some(k);
    assert StageOk(r, c);
    match r.calls[c].stage
    case Conflict(_) =>
      var i :| 0 <= i < |r.t.payments| && r.t.payments[i].idempotencyKey == r.calls[c].dto.idempotencyKey;
      var other := r.origin[i];
      assert other in r.origin && other != k;
      assert SentBy(r.calls[r.log[other].call].stage) == Some(other);
      assert r.t.payments[i].idempotencyKey == r.log[k].key && r.log[r.origin[i]].call != r.log[k].call;
    case _ =>
  }

  /** In every interleaving a paid bill has a successful payment. */
  lemma RacesPayOnlyOnSuccess(t: Tables, actions: seq<Action>, pair: Pair)
    requires Fresh(t)
    ensures PaidAnywhere(RunRace(Idle(t), actions).t, pair) ==>
      HasSuccess(RunRace(Idle(t), actions).t.payments, pair)
  {
    EveryInterleavingKeeps(t, actions);
  }

  // ---- a call that runs alone is the serial `create`

  function Alone(r: Race, c: nat, answer: BbpsAnswer, moves: nat): Race
    decreases moves
  {
    if moves == 0 then r else Alone(Act(r, Advance(c, answer)), c, answer, moves - 1)
  }

  lemma {:induction false} FinishedStays(r: Race, c: nat, answer: BbpsAnswer, moves: nat)
    requires c < |r.calls| && Finished(r.calls[c].stage)
    ensures Alone(r, c, answer, moves) == r
  {
    if moves != 0 {
      assert Act(r, Advance(c, answer)) == r;
      FinishedStays(r, c, answer, moves - 1);
    }
  }

  lemma AnsweredAlone(r: Race, c: nat, answer: BbpsAnswer, record: BillingRecord, bill: Bill)
    requires c < |r.calls| && Exists(r.t, record)
    requires r.calls[c].stage.Waiting? && r.calls[c].stage.sending < |r.log|
    requires r.calls[c].stage.record == record && r.calls[c].stage.bill == bill
    requires RowByKey(r.t.payments, r.calls[c].dto.idempotencyKey).None?
    ensures var q := Alone(r, c, answer, 3);
      && |q.calls| == |r.calls|
      && var sent := Some(r.calls[c].stage.sending);
         if answer.Unreachable? then q.t == r.t && q.calls[c].stage == Returned(Err(BbpsUnreachable), sent)
         else
           var payment := NewPayment(bill, r.calls[c].dto, r.calls[c].actor, answer);
           var stored := r.t.(payments := r.t.payments + [payment]);
           && q.t == (if answer.status.SUCCESS? then SaveBill(stored, record, bill.(status := PAID)) else stored)
           && q.calls[c].stage == Returned(Ok(ReceiptFor(|r.t.payments|, payment, false)), sent)
  {
    var q1 := Act(r, Advance(c, answer));
    if answer.Unreachable? {
      FinishedStays(q1, c, answer, 2);
    } else {
      var q2 := Act(q1, Advance(c, answer));
      if !answer.status.SUCCESS? {
        FinishedStays(q2, c, answer, 1);
      } else {
        assert Alone(q2, c, answer, 1) == Act(q2, Advance(c, answer));
      }
      assert Alone(q1, c, answer, 2) == Alone(q2, c, answer, 1);
    }
    assert Alone(r, c, answer, 3) == Alone(q1, c, answer, 2);
  }

  /** From the record it names, a call checks, sends, stores and marks as the serial specification says. */
  lemma SentAlone(r: Race, c: nat, answer: BbpsAnswer, record: BillingRecord)
    requires c < |r.calls|
    requires var call := r.calls[c];
      && call.actor.sub != "" && Complete(call.dto)
      && RowByKey(r.t.payments, call.dto.idempotencyKey).None? && NamedRecord(r.t, call.dto) == Some(record)
    ensures var q := Alone(CheckAndSend(r, c, record, BillAt(r.t, record)), c, answer, 3);
      && |q.calls| == |r.calls| && q.calls[c].stage.Returned?
      && q.t == AfterCreate(r.t, r.calls[c].dto, r.calls[c].actor, answer)
      && q.calls[c].stage.reply == CreateReply(r.t, r.calls[c].dto, r.calls[c].actor, answer)
  {
    var call := r.calls[c];
    var q := CheckAndSend(r, c, record, BillAt(r.t, record));
    if PayRefusal(r.t, call.dto).Some? {
      FinishedStays(q, c, answer, 3);
    } else {
      AnsweredAlone(q, c, answer, record, BillAt(r.t, record));
    }
  }

  lemma SoughtAlone(r: Race, c: nat, answer: BbpsAnswer)
    requires c < |r.calls| && r.calls[c].stage.SeekMock?
    requires var call := r.calls[c];
      call.actor.sub != "" && Complete(call.dto) && RowByKey(r.t.payments, call.dto.idempotencyKey).None?
    ensures var q := Alone(r, c, answer, 5);
      && |q.calls| == |r.calls| && q.calls[c].stage.Returned?
      && q.t == AfterCreate(r.t, r.calls[c].dto, r.calls[c].actor, answer)
      && q.calls[c].stage.reply == CreateReply(r.t, r.calls[c].dto, r.calls[c].actor, answer)
  {
    var dto := r.calls[c].dto;
    var q1 := Act(r, Advance(c, answer));
    assert Alone(r, c, answer, 5) == Alone(q1, c, answer, 4);
    var inMock := SoughtRow(r.t.mock, dto);
    if inMock.Some? {
      SentAlone(r, c, answer, InMock(inMock.value));
      assert Alone(q1, c, answer, 4) == Alone(q1, c, answer, 3) by {
        MoreMoves(q1, c, answer, 3, 1);
      }
    } else {
      var q2 := Act(q1, Advance(c, answer));
      assert Alone(q1, c, answer, 4) == Alone(q2, c, answer, 3);
      var inDemo := SoughtRow(q1.t.demo, dto);
      if inDemo.Some? {
        SentAlone(q1, c, answer, InDemo(inDemo.value));
      } else {
        FinishedStays(q2, c, answer, 3);
      }
    }
  }

  lemma {:induction false} MoreMoves(r: Race, c: nat, answer: BbpsAnswer, moves: nat, more: nat)
    requires c < |r.calls| && c < |Alone(r, c, answer, moves).calls|
    requires Finished(Alone(r, c, answer, moves).calls[c].stage)
    ensures Alone(r, c, answer, moves + more) == Alone(r, c, answer, moves)
    decreases moves
  {
    if moves == 0 {
      FinishedStays(r, c, answer, more);
    } else {
      MoreMoves(Act(r, Advance(c, answer)), c, answer, moves - 1, more);
    }
  }

  lemma ReplayedAlone(r: Race, c: nat, answer: BbpsAnswer)
    requires c < |r.calls| && r.calls[c].stage.Started?
    requires var call := r.calls[c];
      call.actor.sub != "" && Complete(call.dto) && RowByKey(r.t.payments, call.dto.idempotencyKey).Some?
    ensures var q := Alone(r, c, answer, 3);
      && |q.calls| == |r.calls| && q.calls[c].stage.Returned?
      && q.t == r.t && q.calls[c].stage.reply == CreateReply(r.t, r.calls[c].dto, r.calls[c].actor, answer)
  {
    var q1 := Act(r, Advance(c, answer));
    var q2 := Act(q1, Advance(c, answer));
    assert Alone(r, c, answer, 3) == Alone(q1, c, answer, 2);
    assert Alone(q1, c, answer, 2) == Alone(q2, c, answer, 1);
    assert Alone(q2, c, answer, 1) == Act(q2, Advance(c, answer));
  }

  /** The split into awaits is faithful: a call that runs from start to end without interference has
      exactly the effect and the reply of the serial specification. */
  lemma AloneIsCreate(r: Race, dto: CreatePaymentDto, actor: Actor, answer: BbpsAnswer)
    ensures var c := |r.calls|;
      var q := Alone(Act(r, Begin(dto, actor)), c, answer, 6);
      && |q.calls| == c + 1 && q.calls[c].stage.Returned?
      && q.t == AfterCreate(r.t, dto, actor, answer)
      && q.calls[c].stage.reply == CreateReply(r.t, dto, actor, answer)
  {
    var c := |r.calls|;
    var q := Act(r, Begin(dto, actor));
    if Finished(q.calls[c].stage) {
      FinishedStays(q, c, answer, 6);
    } else if RowByKey(r.t.payments, dto.idempotencyKey).Some? {
      ReplayedAlone(q, c, answer);
      MoreMoves(q, c, answer, 3, 3);
    } else {
      var q1 := Act(q, Advance(c, answer));
      assert Alone(q, c, answer, 6) == Alone(q1, c, answer, 5);
      SoughtAlone(q1, c, answer);
    }
  }

  lemma RunSplit(r: Race, a: seq<Action>, b: seq<Action>)
    ensures RunRace(r, a + b) == RunRace(RunRace(r, a), b)
  {
    if b == [] {
      assert a + b == a;
    } else {
      assert (a + b)[..|a + b| - 1] == a + b[..|b| - 1];
      RunSplit(r, a, b[..|b| - 1]);
    }
  }
}
