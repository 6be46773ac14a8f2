/** Whether an attempt can finish: following `resume` to COMPLETED, and the retries that can no longer
    succeed. */
module SagaCompletion {
  import opened Faults
  import opened RegistrationSaga
  import opened SagaRuns
  import opened SagaProgress
  import Otp = OtpService

  // ---- progress

  /** Actions left at a step when nothing fails. */
  function Remaining(step: Step): nat {
    match step
    case INIT => 4
    case OTP_VERIFIED => 3
    case CREDENTIALS_SET => 3
    case KEYCLOAK_USER_CREATED => 2
    case DEVICE_REGISTERED => 1
    case COMPLETED => 0
  }

  /** The attempt still needs a Keycloak user. */
  ghost predicate NeedsUser(a: Attempt) {
    Index(a.currentStep) <= Index(CREDENTIALS_SET)
  }

  /** Nothing is in the way of the attempt's completion. */
  ghost predicate CanFinish(w: World, id: nat) {
    Live(w, id) && (NeedsUser(w.attempts[id]) ==> UsernameFree(w, w.attempts[id].mobileNumber))
  }

  /** Doing what `resume` says, without failures; the first action creates the passcode it verifies. */
  function Follow(w: World, id: nat, now: int, config: Otp.Config): World {
    match Resume(w, id)
    case Err(_) => w
    case Ok(action) =>
      match action
      case VerifyOtpNext =>
        var code := Otp.NewChallenge(w.attempts[id].mobileNumber, "code", now, config);
        var v := w.(challenges := w.challenges + [code]);
        VerifyOtp(v, id, |w.challenges|, "code", Otp.Clock(now, now, now), config, map[]).w
      case CreateCredentialsNext => CreateCredentials(w, id, map[]).w
      case RegisterDeviceNext => RegisterDevice(w, id, "device", map[]).w
      case CompleteNext => Complete(w, id, map[]).w
      case LoginNext => w
  }

  lemma FollowIsSafe(w: World, id: nat, now: int, config: Otp.Config)
    requires Safe(w)
    ensures Safe(Follow(w, id, now, config)) && Evolves(w, Follow(w, id, now, config))
  {
    match Resume(w, id)
    case Err(_) =>
    case Ok(action) =>
      match action
      case VerifyOtpNext =>
        var code := Otp.NewChallenge(w.attempts[id].mobileNumber, "code", now, config);
        var v := w.(challenges := w.challenges + [code]);
        SafeFrame(w, v);
        VerifySafe(v, id, |w.challenges|, "code", Otp.Clock(now, now, now), config, map[]);
        EvolvesTransitive(w, v, Follow(w, id, now, config));
      case CreateCredentialsNext => CredentialsSafe(w, id, map[]);
      case RegisterDeviceNext => DeviceStepSafe(w, id, "device", map[]);
      case CompleteNext => CompleteSafe(w, id, map[]);
      case LoginNext =>
  }

  lemma FollowVerifies(w: World, id: nat, now: int, config: Otp.Config)
    requires Live(w, id) && w.attempts[id].currentStep == INIT && config.ttlSeconds >= 0
    ensures var v := Follow(w, id, now, config);
      && v.attempts == w.attempts[id := w.attempts[id].(currentStep := OTP_VERIFIED)] && v.users == w.users
  {
  }

  lemma FollowProvisions(w: World, id: nat, now: int, config: Otp.Config)
    requires Live(w, id)
    requires w.attempts[id].currentStep == OTP_VERIFIED || w.attempts[id].currentStep == CREDENTIALS_SET
    requires UsernameFree(w, w.attempts[id].mobileNumber)
    ensures var v := Follow(w, id, now, config);
      |v.attempts| == |w.attempts| && Live(v, id) && v.attempts[id].currentStep == KEYCLOAK_USER_CREATED
  {
    var mobile := w.attempts[id].mobileNumber;
    var started := SetAttempt(w, id, w.attempts[id].(currentStep := CREDENTIALS_SET));
    if w.attempts[id].currentStep == CREDENTIALS_SET {
      assert started == w;
    }
    var p := Provision(started, id, mobile, map[]);
    assert p.exit.Go? && Live(p.w, id) && p.w.attempts[id].currentStep == CREDENTIALS_SET;
    assert Follow(w, id, now, config) == Advance(p.w, id, KEYCLOAK_USER_CREATED, Works, Works).w;
  }

  lemma FollowLinks(w: World, id: nat, now: int, config: Otp.Config)
    requires Live(w, id) && w.attempts[id].currentStep == KEYCLOAK_USER_CREATED && w.attempts[id].keycloakUserId.Some?
    ensures var v := Follow(w, id, now, config);
      |v.attempts| == |w.attempts| && Live(v, id) && v.attempts[id].currentStep == DEVICE_REGISTERED
  {
  }

  /** One followed action of an unfinished attempt brings it strictly closer to completion. */
  lemma FollowAdvances(w: World, id: nat, now: int, config: Otp.Config)
    requires Safe(w) && CanFinish(w, id) && (config.ttlSeconds >= 0 || w.attempts[id].currentStep != INIT)
    requires w.attempts[id].currentStep != COMPLETED
    ensures var v := Follow(w, id, now, config);
      && Safe(v) && CanFinish(v, id)
      && Remaining(v.attempts[id].currentStep) < Remaining(w.attempts[id].currentStep)
  {
    FollowIsSafe(w, id, now, config);
    assert Sound(w, w.attempts[id]);
    match w.attempts[id].currentStep
    case INIT => FollowVerifies(w, id, now, config);
    case OTP_VERIFIED => FollowProvisions(w, id, now, config);
    case CREDENTIALS_SET => FollowProvisions(w, id, now, config);
    case KEYCLOAK_USER_CREATED => FollowLinks(w, id, now, config);
    case DEVICE_REGISTERED =>
  }

  function FollowFor(w: World, id: nat, now: int, config: Otp.Config, actions: nat): World
    decreases actions
  {
    if actions == 0 then w else FollowFor(Follow(w, id, now, config), id, now, config, actions - 1)
  }

  // ---- when it cannot finish any more

  /** The attempt needs a user, and its mobile number already names one. */
  ghost predicate Stuck(w: World, id: nat) {
    && id < |w.attempts| && NeedsUser(w.attempts[id])
    && !UsernameFree(w, w.attempts[id].mobileNumber)
  }

  lemma TakenStaysTaken(w: World, v: World, username: string)
    requires Evolves(w, v) && !UsernameFree(w, username)
    ensures !UsernameFree(v, username)
  {
    var i :| 0 <= i < |w.users| && w.users[i].username == username;
    assert UserKept(w.users[i], v.users[i]);
  }

  lemma ProvisionStuck(w: World, id: nat, plan: Plan<Point>)
    requires Stuck(w, id) && Live(w, id)
    ensures var p := Provision(w, id, w.attempts[id].mobileNumber, plan);
      p.w == w && !p.exit.Go?
  {
  }

  lemma CredentialsStuck(w: World, id: nat, plan: Plan<Point>)
    requires Safe(w) && Stuck(w, id)
    ensures Stuck(CreateCredentials(w, id, plan).w, id) && !CreateCredentials(w, id, plan).exit.Go?
  {
    var v := CreateCredentials(w, id, plan).w;
    CredentialsSafe(w, id, plan);
    TakenStaysTaken(w, v, w.attempts[id].mobileNumber);
    assert AttemptKept(w.attempts[id], v.attempts[id]);
    if At(plan, FindAttempt).Works? && Live(w, id) && Index(w.attempts[id].currentStep) >= Index(OTP_VERIFIED) {
      var started :=
        if w.attempts[id].currentStep == OTP_VERIFIED then
          Advance(w, id, CREDENTIALS_SET, At(plan, StartFind), At(plan, StartSave))
        else Progress(w, Go);
      if started.exit.Go? {
        ProvisionStuck(started.w, id, plan);
        FailKeepsStep(started.w, id, plan);
      }
    }
  }

  lemma FailKeepsStep(w: World, id: nat, plan: Plan<Point>)
    requires Live(w, id)
    ensures forall reason :: var v := Fail(w, id, CREDENTIALS_SET, reason, plan).w;
      |v.attempts| == |w.attempts| && v.attempts[id].currentStep == w.attempts[id].currentStep
  {
  }

  lemma StepStaysStuck(w: World, e: Event, id: nat, config: Otp.Config)
    requires Safe(w) && Stuck(w, id)
    ensures Stuck(Next(w, e, config), id)
  {
    var v := Next(w, e, config);
    StepSafe(w, e, config);
    TakenStaysTaken(w, v, w.attempts[id].mobileNumber);
    assert AttemptKept(w.attempts[id], v.attempts[id]);
    match e
    case CredentialsStep(other, plan) =>
      if other == id {
        CredentialsStuck(w, id, plan);
      } else {
        CredentialsStepOnly(w, other, plan);
      }
    case VerifyStep(_, challenge, codeHash, clock, plan) =>
      VerifyCodeFrame(w, challenge, codeHash, clock, config, plan);
    case DeviceStep(other, deviceId, plan) => DeviceStepSafe(w, other, deviceId, plan);
    case _ =>
  }

  /** Once the mobile number of an attempt that needs a user is taken, no later run completes it. */
  lemma {:induction false} StuckForever(events: seq<Event>, more: seq<Event>, id: nat, config: Otp.Config)
    requires Stuck(Run(events, config), id)
    ensures Stuck(Run(events + more, config), id)
  {
    if more == [] {
      assert events + more == events;
    } else {
      var front := more[..|more| - 1];
      assert (events + more)[..|events + more| - 1] == events + front;
      StuckForever(events, front, id, config);
      SagaIsSafe(events + front, config);
      StepStaysStuck(Run(events + front, config), more[|more| - 1], id, config);
    }
  }

  lemma {:induction false} FollowStaysStuck(w: World, id: nat, now: int, config: Otp.Config, actions: nat)
    requires Safe(w) && Stuck(w, id)
    ensures Stuck(FollowFor(w, id, now, config, actions), id)
    decreases actions
  {
    if actions > 0 {
      var v := Follow(w, id, now, config);
      FollowIsSafe(w, id, now, config);
      TakenStaysTaken(w, v, w.attempts[id].mobileNumber);
      assert AttemptKept(w.attempts[id], v.attempts[id]);
      if Live(w, id) && w.attempts[id].currentStep != INIT {
        CredentialsStuck(w, id, map[]);
      }
      FollowStaysStuck(v, id, now, config, actions - 1);
    }
  }

  ghost predicate CompletedAt(w: World, id: nat) {
    id < |w.attempts| && w.attempts[id].currentStep == COMPLETED
  }

  lemma ExpiredCodeFails(w: World, id: nat, now: int, config: Otp.Config)
    requires Live(w, id) && w.attempts[id].currentStep == INIT && config.ttlSeconds < 0
    ensures Follow(w, id, now, config).attempts == w.attempts
  {
    var code := Otp.NewChallenge(w.attempts[id].mobileNumber, "code", now, config);
    assert Otp.IsExpired(code.expiresAt, now);
  }

  lemma {:induction false} FollowStaysAtInit(w: World, id: nat, now: int, config: Otp.Config, actions: nat)
    requires Live(w, id) && w.attempts[id].currentStep == INIT && config.ttlSeconds < 0
    ensures var v := FollowFor(w, id, now, config, actions); Live(v, id) && v.attempts[id].currentStep == INIT
    decreases actions
  {
    if actions > 0 {
      ExpiredCodeFails(w, id, now, config);
      FollowStaysAtInit(Follow(w, id, now, config), id, now, config, actions - 1);
    }
  }

  lemma {:induction false} FollowFinishes(w: World, id: nat, now: int, config: Otp.Config, actions: nat)
    requires Safe(w) && CanFinish(w, id) && (config.ttlSeconds >= 0 || w.attempts[id].currentStep != INIT)
    requires actions >= Remaining(w.attempts[id].currentStep)
    ensures CompletedAt(FollowFor(w, id, now, config, actions), id)
    decreases actions
  {
    if actions > 0 {
      if w.attempts[id].currentStep == COMPLETED {
        assert Follow(w, id, now, config) == w;
      } else {
        FollowAdvances(w, id, now, config);
      }
      FollowFinishes(Follow(w, id, now, config), id, now, config, actions - 1);
    }
  }

  /** From any reachable state a live attempt completes by following `resume`, four actions being
      always enough, if and only if it has its user or nobody holds its mobile number as a username, and
      passcodes do not expire at once if it still needs one. */
  lemma FollowingFinishesIffUsernameFree(events: seq<Event>, id: nat, now: int, config: Otp.Config, actions: nat)
    requires Live(Run(events, config), id) && actions >= 4
    ensures var w := Run(events, config);
      CanFinish(w, id) && (w.attempts[id].currentStep == INIT ==> config.ttlSeconds >= 0)
      <==> CompletedAt(FollowFor(w, id, now, config, actions), id)
  {
    var w := Run(events, config);
    SagaIsSafe(events, config);
    if !CanFinish(w, id) {
      FollowStaysStuck(w, id, now, config, actions);
    } else if w.attempts[id].currentStep == INIT && config.ttlSeconds < 0 {
      FollowStaysAtInit(w, id, now, config, actions);
    } else {
      FollowFinishes(w, id, now, config, actions);
    }
  }

  ghost predicate StaysShort(w: World, id: nat) {
    id < |w.attempts| && NeedsUser(w.attempts[id])
  }

  ghost predicate AtCredentials(w: World, id: nat) {
    Live(w, id) && (w.attempts[id].currentStep == OTP_VERIFIED || w.attempts[id].currentStep == CREDENTIALS_SET)
  }

  /** The call gets to its request to Keycloak. */
  ghost predicate Begins(w: World, id: nat, plan: Plan<Point>)
    requires AtCredentials(w, id)
  {
    && At(plan, FindAttempt).Works?
    && (w.attempts[id].currentStep == OTP_VERIFIED ==> At(plan, StartFind).Works? && At(plan, StartSave).Works?)
  }

  /** A credentials call, first or repeated, that leaves its attempt short of KEYCLOAK_USER_CREATED can be
      retried with success exactly when Keycloak did not create the user. */
  lemma RetryIsPossibleIffNoUserWasMade(w: World, id: nat, plan: Plan<Point>)
    requires Safe(w) && AtCredentials(w, id) && UsernameFree(w, w.attempts[id].mobileNumber)
    requires StaysShort(CreateCredentials(w, id, plan).w, id)
    ensures var v := CreateCredentials(w, id, plan).w;
      && (|v.users| > |w.users| <==> Begins(w, id, plan) && TakesEffect(At(plan, CreateUser)))
      && (|v.users| > |w.users| <==> Stuck(v, id))
      && (|v.users| > |w.users| <==> !CreateCredentials(v, id, map[]).exit.Go?)
  {
    var v := CreateCredentials(w, id, plan).w;
    CredentialsSafe(w, id, plan);
    if Begins(w, id, plan) {
      BegunUsers(w, id, plan);
    }
    if Begins(w, id, plan) && TakesEffect(At(plan, CreateUser)) {
      assert v.users[|w.users|].username == w.attempts[id].mobileNumber;
      CredentialsStuck(v, id, map[]);
    } else {
      FollowProvisionsExit(v, id);
    }
  }

  /** The Keycloak users and the attempt after a credentials call that got as far as its `try`. */
  ghost predicate TriedUsers(w: World, v: World, id: nat, plan: Plan<Point>)
    requires Live(w, id)
  {
    && Live(v, id) && Index(v.attempts[id].currentStep) >= Index(CREDENTIALS_SET)
    && v.attempts[id].mobileNumber == w.attempts[id].mobileNumber
    && (if TakesEffect(At(plan, CreateUser)) then
          |v.users| == |w.users| + 1 && v.users[|w.users|].username == w.attempts[id].mobileNumber
        else v.users == w.users)
  }

  lemma TriedEnds(w: World, id: nat, plan: Plan<Point>)
    requires Live(w, id) && w.attempts[id].currentStep == CREDENTIALS_SET
    requires UsernameFree(w, w.attempts[id].mobileNumber)
    ensures var caught := Caught(Provision(w, id, w.attempts[id].mobileNumber, plan), id, CREDENTIALS_SET, plan);
      TriedUsers(w, Returned(caught, id, KEYCLOAK_USER_CREATED, plan).w, id, plan)
  {
    var tried := Provision(w, id, w.attempts[id].mobileNumber, plan);
    ProvisionUsers(w, id, plan);
    if tried.exit.Threw? {
      FailUsers(tried.w, id, tried.exit.error, plan);
    }
    var caught := Caught(tried, id, CREDENTIALS_SET, plan);
    assert TriedUsers(w, caught.w, id, plan);
    ReturnedUsers(w, caught, id, plan);
  }

  lemma ReturnedUsers(w: World, caught: Progress, id: nat, plan: Plan<Point>)
    requires Live(w, id) && TriedUsers(w, caught.w, id, plan)
    ensures TriedUsers(w, Returned(caught, id, KEYCLOAK_USER_CREATED, plan).w, id, plan)
  {
  }

  lemma BegunUsers(w: World, id: nat, plan: Plan<Point>)
    requires AtCredentials(w, id) && UsernameFree(w, w.attempts[id].mobileNumber) && Begins(w, id, plan)
    ensures TriedUsers(w, CreateCredentials(w, id, plan).w, id, plan)
  {
    var started := SetAttempt(w, id, w.attempts[id].(currentStep := CREDENTIALS_SET));
    if w.attempts[id].currentStep == CREDENTIALS_SET {
      assert started == w;
    }
    TriedEnds(started, id, plan);
  }

  lemma ProvisionUsers(w: World, id: nat, plan: Plan<Point>)
    requires Live(w, id) && UsernameFree(w, w.attempts[id].mobileNumber)
    ensures var p := Provision(w, id, w.attempts[id].mobileNumber, plan);
      && Live(p.w, id) && p.w.attempts[id].currentStep == w.attempts[id].currentStep
      && p.w.attempts[id].mobileNumber == w.attempts[id].mobileNumber
      && (if TakesEffect(At(plan, CreateUser)) then
            |p.w.users| == |w.users| + 1 && p.w.users[|w.users|].username == w.attempts[id].mobileNumber
          else p.w.users == w.users)
  {
  }

  lemma FailUsers(w: World, id: nat, reason: SagaError, plan: Plan<Point>)
    requires Live(w, id)
    ensures var v := Fail(w, id, CREDENTIALS_SET, reason, plan).w;
      && v.users == w.users && Live(v, id) && v.attempts[id].currentStep == w.attempts[id].currentStep
      && v.attempts[id].mobileNumber == w.attempts[id].mobileNumber
  {
  }

  lemma FollowProvisionsExit(w: World, id: nat)
    requires AtCredentials(w, id) && UsernameFree(w, w.attempts[id].mobileNumber)
    ensures CreateCredentials(w, id, map[]).exit.Go?
  {
    var started := SetAttempt(w, id, w.attempts[id].(currentStep := CREDENTIALS_SET));
    if w.attempts[id].currentStep == CREDENTIALS_SET {
      assert started == w;
    }
    var p := Provision(started, id, w.attempts[id].mobileNumber, map[]);
    assert p.exit.Go? && Live(p.w, id) && p.w.attempts[id].currentStep == CREDENTIALS_SET;
  }
}
