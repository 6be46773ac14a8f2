/** The passcodes that take registration attempts past INIT: one consumed challenge for each, and whose. */
module SagaPasscodes {
  import opened Outcomes
  import opened Faults
  import opened RegistrationSaga
  import opened SagaRuns
  import opened SagaProgress
  import Otp = OtpService

  // ---- one passcode per attempt

  /** The event takes attempt `id` past INIT. */
  ghost predicate LeavesInit(w: World, e: Event, config: Otp.Config) {
    && e.VerifyStep? && e.id < |w.attempts| && w.attempts[e.id].currentStep == INIT
    && e.id < |Next(w, e, config).attempts| && Next(w, e, config).attempts[e.id].currentStep != INIT
  }

  /** For each attempt past INIT, the challenge that took it there. */
  ghost function ProofOf(events: seq<Event>, config: Otp.Config): map<nat, nat> {
    if events == [] then map[]
    else
      var front, e := events[..|events| - 1], events[|events| - 1];
      var earlier := ProofOf(front, config);
      if LeavesInit(Run(front, config), e, config) then earlier[e.id := e.challenge] else earlier
  }

  /** A code that verified, in the saga or on its own. */
  ghost predicate Verifies(w: World, e: Event) {
    match e
    case VerifyStep(_, challenge, codeHash, clock, _) => Otp.VerifyReply(w.challenges, challenge, codeHash, clock).Ok?
    case TryCode(challenge, codeHash, clock) => Otp.VerifyReply(w.challenges, challenge, codeHash, clock).Ok?
    case _ => false
  }

  ghost function Verifications(events: seq<Event>, config: Otp.Config): nat {
    if events == [] then 0
    else
      var front, e := events[..|events| - 1], events[|events| - 1];
      Verifications(front, config) + if Verifies(Run(front, config), e) then 1 else 0
  }

  lemma VerifyStepEffect(w: World, e: Event, config: Otp.Config)
    requires LeavesInit(w, e, config)
    ensures Verifies(w, e) && Otp.Live(w.challenges, e.challenge)
    ensures var v := Next(w, e, config); e.challenge < |v.challenges| && v.challenges[e.challenge].deleted
  {
  }

  lemma InitIsLeftOnce(w: World, e: Event, i: nat, config: Otp.Config)
    requires i < |w.attempts|
    ensures i < |Next(w, e, config).attempts|
    ensures var a, b := w.attempts[i], Next(w, e, config).attempts[i];
      (a.currentStep != INIT || (LeavesInit(w, e, config) && e.id == i)) <==> b.currentStep != INIT
  {
    match e
    case CredentialsStep(id, plan) => CredentialsStepOnly(w, id, plan);
    case DeviceStep(id, deviceId, plan) => DeviceStepInit(w, id, i, deviceId, plan);
    case VerifyStep(id, challenge, codeHash, clock, plan) =>
      VerifyCodeFrame(w, challenge, codeHash, clock, config, plan);
    case _ =>
  }

  lemma DeviceStepInit(w: World, id: nat, i: nat, deviceId: string, plan: Plan<Point>)
    requires i < |w.attempts|
    ensures var v := RegisterDevice(w, id, deviceId, plan).w;
      |v.attempts| == |w.attempts| && (v.attempts[i].currentStep == INIT <==> w.attempts[i].currentStep == INIT)
  {
    if AtDeviceStep(w, id) && At(plan, FindAttempt).Works? {
      DeviceStepStep(w, id, deviceId, plan);
      DeviceStepOthers(w, id, deviceId, plan);
    }
  }

  lemma DeviceFailOthers(w: World, id: nat, reason: SagaError, plan: Plan<Point>)
    ensures var v := Fail(w, id, DEVICE_REGISTERED, reason, plan).w;
      Only(w, v, id) && v.challenges == w.challenges
  {
  }

  lemma LinkOthers(w: World, id: nat, user: nat, deviceId: string, plan: Plan<Point>)
    ensures var v := Link(w, id, user, deviceId, plan).w;
      Only(w, v, id) && v.challenges == w.challenges
  {
  }

  lemma DeviceStepOthers(w: World, id: nat, deviceId: string, plan: Plan<Point>)
    ensures var v := RegisterDevice(w, id, deviceId, plan).w;
      Only(w, v, id) && v.challenges == w.challenges
  {
    if AtDeviceStep(w, id) && At(plan, FindAttempt).Works? {
      var user := w.attempts[id].keycloakUserId.value;
      var linked := Link(w, id, user, deviceId, plan);
      LinkOthers(w, id, user, deviceId, plan);
      if linked.exit.Threw? {
        DeviceFailOthers(linked.w, id, linked.exit.error, plan);
      }
    }
  }

  lemma ChallengesStayDeleted(w: World, e: Event, c: nat, config: Otp.Config)
    requires c < |w.challenges| && w.challenges[c].deleted
    ensures c < |Next(w, e, config).challenges| && Next(w, e, config).challenges[c].deleted
  {
    match e
    case CredentialsStep(id, plan) => CredentialsStepOnly(w, id, plan);
    case DeviceStep(id, deviceId, plan) => DeviceStepOthers(w, id, deviceId, plan);
    case _ =>
  }

  ghost predicate IsPastInit(w: World, i: nat) {
    i < |w.attempts| && w.attempts[i].currentStep != INIT
  }

  ghost predicate Consumed(w: World, c: nat) {
    c < |w.challenges| && w.challenges[c].deleted
  }

  /** Exactly the attempts past INIT have a challenge, each a consumed one and each its own. */
  ghost predicate ProvenBy(w: World, proof: map<nat, nat>) {
    && (forall i: nat :: i in proof <==> IsPastInit(w, i))
    && (forall i | i in proof :: Consumed(w, proof[i]))
    && (forall i, j | i in proof && j in proof && i != j :: proof[i] != proof[j])
  }

  /** In every serial run the attempts past INIT correspond one to one to consumed challenges, so there
      are never more of them than passcodes that verified. */
  lemma {:induction false} OnePasscodePerAttempt(events: seq<Event>, config: Otp.Config)
    ensures var w, proof := Run(events, config), ProofOf(events, config);
      ProvenBy(w, proof) && |proof| <= Verifications(events, config)
  {
    if events != [] {
      var front, e := events[..|events| - 1], events[|events| - 1];
      OnePasscodePerAttempt(front, config);
      ProofGrows(Run(front, config), e, ProofOf(front, config), config);
    }
  }

  lemma PastInit(w: World, e: Event, i: nat, config: Otp.Config)
    ensures IsPastInit(Next(w, e, config), i) <==>
      IsPastInit(w, i) || (LeavesInit(w, e, config) && i == e.id)
  {
    if i < |w.attempts| {
      InitIsLeftOnce(w, e, i, config);
    } else if i < |Next(w, e, config).attempts| {
      AddedAttemptsAreInit(w, e, i, config);
    }
  }

  /** One more attempt past INIT, by a challenge that was live and is now consumed. */
  lemma ProvenGrows(w: World, v: World, proof: map<nat, nat>, id: nat, challenge: nat)
    requires ProvenBy(w, proof) && !IsPastInit(w, id) && !Consumed(w, challenge) && Consumed(v, challenge)
    requires forall i: nat :: IsPastInit(v, i) <==> IsPastInit(w, i) || i == id
    requires forall c: nat :: Consumed(w, c) ==> Consumed(v, c)
    ensures ProvenBy(v, proof[id := challenge]) && |proof[id := challenge]| == |proof| + 1
  {
    assert id !in proof;
    ProofStaysDistinct(w, proof, id, challenge);
    forall i | i in proof ensures Consumed(v, proof[i]) {
      assert Consumed(w, proof[i]);
    }
    MapGrows(proof, id, challenge);
  }

  lemma ProofStaysDistinct(w: World, proof: map<nat, nat>, id: nat, challenge: nat)
    requires ProvenBy(w, proof) && id !in proof && !Consumed(w, challenge)
    ensures var more := proof[id := challenge]; forall i, j | i in more && j in more && i != j :: more[i] != more[j]
  {
    forall i | i in proof ensures proof[i] != challenge {
      assert Consumed(w, proof[i]);
    }
  }

  lemma MapGrows(m: map<nat, nat>, key: nat, value: nat)
    requires key !in m
    ensures |m[key := value]| == |m| + 1
  {
    assert m[key := value].Keys == m.Keys + {key};
  }

  lemma ProofGrows(w: World, e: Event, proof: map<nat, nat>, config: Otp.Config)
    requires ProvenBy(w, proof)
    ensures var v := Next(w, e, config);
      if LeavesInit(w, e, config) then
        ProvenBy(v, proof[e.id := e.challenge]) && Verifies(w, e) && |proof[e.id := e.challenge]| == |proof| + 1
      else ProvenBy(v, proof)
  {
    var v := Next(w, e, config);
    forall i: nat
      ensures IsPastInit(v, i) <==> IsPastInit(w, i) || (LeavesInit(w, e, config) && i == e.id)
    {
      PastInit(w, e, i, config);
    }
    forall c: nat | Consumed(w, c) ensures Consumed(v, c) {
      ChallengesStayDeleted(w, e, c, config);
    }
    if LeavesInit(w, e, config) {
      VerifyStepEffect(w, e, config);
      ProvenGrows(w, v, proof, e.id, e.challenge);
    }
  }

  lemma AddedAttemptsAreInit(w: World, e: Event, i: nat, config: Otp.Config)
    requires |w.attempts| <= i < |Next(w, e, config).attempts|
    ensures Next(w, e, config).attempts[i].currentStep == INIT
  {
    match e
    case CredentialsStep(id, plan) => CredentialsStepOnly(w, id, plan);
    case DeviceStep(id, deviceId, plan) => DeviceStepOthers(w, id, deviceId, plan);
    case _ =>
  }

  // ---- whose passcode

  /** The event names a challenge sent to the attempt's own number. */
  ghost predicate NamesOwnCode(w: World, e: Event)
    requires e.VerifyStep? && e.id < |w.attempts|
  {
    e.challenge < |w.challenges| && w.challenges[e.challenge].mobileNumber == w.attempts[e.id].mobileNumber
  }

  /** Every event of the run that takes an attempt past INIT does. */
  ghost predicate NameOwnCodes(events: seq<Event>, config: Otp.Config) {
    if events == [] then true
    else
      var front, e := events[..|events| - 1], events[|events| - 1];
      && NameOwnCodes(front, config)
      && (LeavesInit(Run(front, config), e, config) ==> NamesOwnCode(Run(front, config), e))
  }

  /** Every attempt past INIT is proven by a challenge that was sent to its own number. */
  ghost predicate ProvenByOwnCodes(w: World, proof: map<nat, nat>) {
    forall i | i in proof ::
      && i < |w.attempts| && proof[i] < |w.challenges|
      && w.challenges[proof[i]].mobileNumber == w.attempts[i].mobileNumber
  }

  lemma NumbersStay(w: World, e: Event, c: nat, config: Otp.Config)
    requires c < |w.challenges|
    ensures c < |Next(w, e, config).challenges|
    ensures Next(w, e, config).challenges[c].mobileNumber == w.challenges[c].mobileNumber
  {
    match e
    case CredentialsStep(id, plan) => CredentialsStepOnly(w, id, plan);
    case DeviceStep(id, deviceId, plan) => DeviceStepOthers(w, id, deviceId, plan);
    case _ =>
  }

  lemma StepKeepsOwnCodes(w: World, e: Event, proof: map<nat, nat>, config: Otp.Config)
    requires Safe(w) && ProvenBy(w, proof)
    ensures ProvenByOwnCodes(Next(w, e, config), proof) <==> ProvenByOwnCodes(w, proof)
  {
    var v := Next(w, e, config);
    StepSafe(w, e, config);
    forall i | i in proof
      ensures i < |w.attempts| && i < |v.attempts| && proof[i] < |w.challenges| && proof[i] < |v.challenges|
      ensures v.challenges[proof[i]].mobileNumber == w.challenges[proof[i]].mobileNumber
      ensures v.attempts[i].mobileNumber == w.attempts[i].mobileNumber
    {
      assert IsPastInit(w, i) && Consumed(w, proof[i]);
      NumbersStay(w, e, proof[i], config);
      assert AttemptKept(w.attempts[i], v.attempts[i]);
    }
  }

  /** In every serial run, the attempts past INIT are all proven by challenges sent to their own numbers if
      and only if every verify call that took one there named such a challenge: the service does not check
      it, so the caller has to. */
  lemma {:induction false} OwnCodesIffNamed(events: seq<Event>, config: Otp.Config)
    ensures ProvenByOwnCodes(Run(events, config), ProofOf(events, config)) <==> NameOwnCodes(events, config)
  {
    if events != [] {
      var front, e := events[..|events| - 1], events[|events| - 1];
      var w, proof := Run(front, config), ProofOf(front, config);
      OwnCodesIffNamed(front, config);
      OnePasscodePerAttempt(front, config);
      SagaIsSafe(front, config);
      StepKeepsOwnCodes(w, e, proof, config);
      if LeavesInit(w, e, config) {
        NewProofIsOwnIff(w, e, proof, config);
      }
    }
  }

  lemma NewProofIsOwnIff(w: World, e: Event, proof: map<nat, nat>, config: Otp.Config)
    requires Safe(w) && ProvenBy(w, proof) && LeavesInit(w, e, config)
    ensures ProvenByOwnCodes(Next(w, e, config), proof[e.id := e.challenge])
            <==> ProvenByOwnCodes(Next(w, e, config), proof) && NamesOwnCode(w, e)
  {
    var v, more := Next(w, e, config), proof[e.id := e.challenge];
    VerifyStepEffect(w, e, config);
    NumbersStay(w, e, e.challenge, config);
    StepSafe(w, e, config);
    assert AttemptKept(w.attempts[e.id], v.attempts[e.id]);
    assert !IsPastInit(w, e.id) && e.id !in proof;
    if ProvenByOwnCodes(v, more) {
      assert e.id in more;
      forall i | i in proof
        ensures i < |v.attempts| && proof[i] < |v.challenges|
        ensures v.challenges[proof[i]].mobileNumber == v.attempts[i].mobileNumber
      {
        assert i in more;
      }
    }
  }

  /** For any two numbers there is a run in which a passcode sent to the one verifies an attempt of the
      other. */
  lemma ForeignCodeVerifies(mine: string, other: string, hash: string, now: int, config: Otp.Config)
    requires mine != other && config.ttlSeconds >= 0
    ensures var events := [NewAttempt(mine, Works), NewCode(other, hash, now),
                           VerifyStep(0, 0, hash, Otp.Clock(now, now, now), map[])];
      && ProofOf(events, config) == map[0 := 0] && IsPastInit(Run(events, config), 0)
      && Run(events, config).attempts[0].mobileNumber == mine
      && Run(events, config).challenges[0].mobileNumber == other
      && !NameOwnCodes(events, config)
  {
    var first, second := NewAttempt(mine, Works), NewCode(other, hash, now);
    var third := VerifyStep(0, 0, hash, Otp.Clock(now, now, now), map[]);
    var attempt := Attempt(mine, INIT, None, None, None, false);
    var code := Otp.NewChallenge(other, hash, now, config);
    RunThen([], first, config);
    RunThen([first], second, config);
    RunThen([first, second], third, config);
    assert [] + [first] == [first] && [first] + [second] == [first, second];
    assert [first, second] + [third] == [first, second, third];
    assert Run([first, second], config) == World([attempt], [code], [], [], {});
    ForeignStep(attempt, code, third, config);
  }

  lemma ForeignStep(attempt: Attempt, code: Otp.Challenge, e: Event, config: Otp.Config)
    requires attempt.currentStep == INIT && !attempt.deleted && !code.deleted && code.lockedUntil.None?
    requires e.VerifyStep? && e.id == e.challenge == 0 && e.plan == map[] && e.codeHash == code.otpHash
    requires !Otp.IsExpired(code.expiresAt, e.clock.atExpiry)
    ensures var w := World([attempt], [code], [], [], {});
      && LeavesInit(w, e, config)
      && Next(w, e, config) ==
           World([attempt.(currentStep := OTP_VERIFIED)], [code.(deleted := true)], [], [], {})
  {
  }

  lemma RunThen(events: seq<Event>, e: Event, config: Otp.Config)
    ensures Run(events + [e], config) == Next(Run(events, config), e, config)
    ensures ProofOf(events + [e], config) ==
      if LeavesInit(Run(events, config), e, config) then ProofOf(events, config)[e.id := e.challenge]
      else ProofOf(events, config)
    ensures NameOwnCodes(events + [e], config) <==>
      NameOwnCodes(events, config)
      && (LeavesInit(Run(events, config), e, config) ==> NamesOwnCode(Run(events, config), e))
  {
    assert (events + [e])[..|events|] == events;
  }

  /** The code never looks at whose number a challenge was sent to: whatever the number, a verify call takes
      its attempt past INIT or does not. */
  lemma VerifyIgnoresTheNumber(w: World, e: Event, config: Otp.Config, other: string)
    requires e.VerifyStep? && e.challenge < |w.challenges|
    ensures var v :=
        w.(challenges := w.challenges[e.challenge := w.challenges[e.challenge].(mobileNumber := other)]);
      && (LeavesInit(v, e, config) <==> LeavesInit(w, e, config))
      && Next(v, e, config).attempts == Next(w, e, config).attempts
  {
    var c := e.challenge;
    var v := w.(challenges := w.challenges[c := w.challenges[c].(mobileNumber := other)]);
    assert Otp.Refusal(v.challenges, c, e.clock) == Otp.Refusal(w.challenges, c, e.clock);
    CodeKeepsAttempts(w, c, e.codeHash, e.clock, config, e.plan);
    CodeKeepsAttempts(v, c, e.codeHash, e.clock, config, e.plan);
  }

  lemma CodeKeepsAttempts(
      w: World, c: nat, codeHash: string, clock: Otp.Clock, config: Otp.Config, plan: Plan<Point>)
    ensures var p := VerifyCode(w, c, codeHash, clock, config, plan);
      && p.w == w.(challenges := p.w.challenges)
      && (p.exit.Go? <==> At(plan, OtpFind).Works? && At(plan, OtpDelete).Works?
                          && Otp.VerifyReply(w.challenges, c, codeHash, clock).Ok?)
  {
  }
}
