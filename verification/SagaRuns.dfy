/** Serial runs of the registration saga with failures at any await: what every attempt keeps. */
module SagaRuns {
  import opened Outcomes
  import opened Faults
  import opened RegistrationSaga
  import Otp = OtpService

  /** The saga's calls, and what else may touch its tables between them. */
  datatype Event =
    | NewAttempt(mobileNumber: string, save: Mode)
    | VerifyStep(id: nat, challenge: nat, codeHash: string, clock: Otp.Clock, plan: Plan<Point>)
    | CredentialsStep(id: nat, plan: Plan<Point>)
    | DeviceStep(id: nat, deviceId: string, plan: Plan<Point>)
    | CompleteStep(id: nat, plan: Plan<Point>)
    | NewCode(mobileNumber: string, otpHash: string, now: int)
    | TryCode(challenge: nat, codeHash: string, clock: Otp.Clock)
    | DeleteAttempt(id: nat)
    | OtherUser(username: string)
    | OtherGrant(user: nat, role: string)
    | StoreCredential(user: nat)

  function Next(w: World, e: Event, config: Otp.Config): World {
    match e
    case NewAttempt(mobile, save) => CreateAttempt(w, mobile, save).w
    case VerifyStep(id, challenge, codeHash, clock, plan) =>
      VerifyOtp(w, id, challenge, codeHash, clock, config, plan).w
    case CredentialsStep(id, plan) => CreateCredentials(w, id, plan).w
    case DeviceStep(id, deviceId, plan) => RegisterDevice(w, id, deviceId, plan).w
    case CompleteStep(id, plan) => Complete(w, id, plan).w
    case NewCode(mobile, hash, now) => w.(challenges := w.challenges + [Otp.NewChallenge(mobile, hash, now, config)])
    case TryCode(challenge, codeHash, clock) =>
      w.(challenges := Otp.AfterVerify(w.challenges, challenge, codeHash, clock, config))
    case DeleteAttempt(id) =>
      if Live(w, id) then SetAttempt(w, id, w.attempts[id].(deleted := true)) else w
    case OtherUser(username) => if UsernameFree(w, username) then AddUser(w, username) else w
    case OtherGrant(user, role) => if user < |w.users| then GrantRole(w, user, role) else w
    case StoreCredential(user) => w.(credentials := w.credentials + {user})
  }

  const EMPTY := World([], [], [], [], {})

  function Run(events: seq<Event>, config: Otp.Config): World {
    if events == [] then EMPTY else Next(Run(events[..|events| - 1], config), events[|events| - 1], config)
  }

  // ---- what never changes for the worse

  ghost predicate UserKept(a: KeycloakUser, b: KeycloakUser) {
    a.username == b.username && a.roles <= b.roles
  }

  ghost predicate DeviceKept(a: Device, b: Device) {
    a.userId == b.userId && (a.deleted ==> b.deleted)
  }

  /** An attempt keeps its mobile number and never moves back. */
  ghost predicate AttemptKept(a: Attempt, b: Attempt) {
    && a.mobileNumber == b.mobileNumber && Index(a.currentStep) <= Index(b.currentStep)
    && (a.deleted ==> b == a)
  }

  ghost predicate Evolves(w: World, v: World) {
    && |w.attempts| <= |v.attempts| && |w.users| <= |v.users| && |w.devices| <= |v.devices|
    && (forall i | 0 <= i < |w.attempts| :: AttemptKept(w.attempts[i], v.attempts[i]))
    && (forall i | 0 <= i < |w.users| :: UserKept(w.users[i], v.users[i]))
    && (forall i | 0 <= i < |w.devices| :: DeviceKept(w.devices[i], v.devices[i]))
  }

  /** Only attempt `id` changes, and no attempt is added. */
  ghost predicate Only(w: World, v: World, id: nat) {
    && |w.attempts| == |v.attempts|
    && forall i | 0 <= i < |w.attempts| && i != id :: v.attempts[i] == w.attempts[i]
  }

  lemma EvolvesTransitive(u: World, v: World, w: World)
    requires Evolves(u, v) && Evolves(v, w)
    ensures Evolves(u, w)
  {
    forall i | 0 <= i < |u.attempts| ensures AttemptKept(u.attempts[i], w.attempts[i]) {
      assert AttemptKept(u.attempts[i], v.attempts[i]) && AttemptKept(v.attempts[i], w.attempts[i]);
    }
    forall i | 0 <= i < |u.users| ensures UserKept(u.users[i], w.users[i]) {
      assert UserKept(u.users[i], v.users[i]) && UserKept(v.users[i], w.users[i]);
    }
    forall i | 0 <= i < |u.devices| ensures DeviceKept(u.devices[i], w.devices[i]) {
      assert DeviceKept(u.devices[i], v.devices[i]) && DeviceKept(v.devices[i], w.devices[i]);
    }
  }

  // ---- the safety of one attempt

  ghost predicate HasCustomer(w: World, a: Attempt) {
    && a.keycloakUserId.Some? && a.keycloakUserId.value < |w.users|
    && w.users[a.keycloakUserId.value].username == a.mobileNumber
    && "RETAIL_CUSTOMER" in w.users[a.keycloakUserId.value].roles
  }

  ghost predicate HasDevice(w: World, a: Attempt) {
    && a.deviceProfileId.Some? && a.deviceProfileId.value < |w.devices|
    && Some(w.devices[a.deviceProfileId.value].userId) == a.keycloakUserId
  }

  /** Ids are recorded in step order and name what the step created. */
  ghost predicate Sound(w: World, a: Attempt) {
    && (a.keycloakUserId.Some? ==> HasCustomer(w, a))
    && (a.deviceProfileId.Some? ==> HasDevice(w, a) && Index(a.currentStep) >= Index(KEYCLOAK_USER_CREATED))
    && (Index(a.currentStep) >= Index(KEYCLOAK_USER_CREATED) ==> a.keycloakUserId.Some?)
    && (Index(a.currentStep) >= Index(DEVICE_REGISTERED) ==> a.deviceProfileId.Some?)
  }

  ghost predicate Clash(a: Attempt, b: Attempt) {
    || (a.keycloakUserId.Some? && a.keycloakUserId == b.keycloakUserId)
    || (a.deviceProfileId.Some? && a.deviceProfileId == b.deviceProfileId)
  }

  ghost predicate Safe(w: World) {
    && (forall i | 0 <= i < |w.attempts| :: Sound(w, w.attempts[i]))
    && (forall i, j | 0 <= i < j < |w.attempts| :: !Clash(w.attempts[i], w.attempts[j]))
  }

  /** A registered attempt's device is live. */
  ghost predicate DeviceLive(w: World, a: Attempt) {
    Index(a.currentStep) >= Index(DEVICE_REGISTERED) ==>
      a.deviceProfileId.Some? && LiveDevice(w, a.deviceProfileId.value)
  }

  ghost predicate DevicesLive(w: World) {
    forall i | 0 <= i < |w.attempts| :: DeviceLive(w, w.attempts[i])
  }

  lemma SoundSurvives(w: World, v: World, a: Attempt)
    requires Sound(w, a) && Evolves(w, v)
    ensures Sound(v, a)
  {
    if a.keycloakUserId.Some? {
      assert UserKept(w.users[a.keycloakUserId.value], v.users[a.keycloakUserId.value]);
    }
    if a.deviceProfileId.Some? {
      assert DeviceKept(w.devices[a.deviceProfileId.value], v.devices[a.deviceProfileId.value]);
    }
  }

  /** A change of one attempt keeps the world safe when that attempt stays sound and clashes with none. */
  lemma SafeAfter(w: World, v: World, id: nat)
    requires Safe(w) && Evolves(w, v) && Only(w, v, id) && id < |w.attempts|
    requires Sound(v, v.attempts[id])
    requires forall i | 0 <= i < |w.attempts| && i != id ::
      !Clash(w.attempts[i], v.attempts[id]) && !Clash(v.attempts[id], w.attempts[i])
    ensures Safe(v)
  {
    forall i | 0 <= i < |v.attempts| ensures Sound(v, v.attempts[i]) {
      if i != id {
        SoundSurvives(w, v, w.attempts[i]);
      }
    }
  }

  lemma SafeFrame(w: World, v: World)
    requires Safe(w) && Evolves(w, v) && w.attempts == v.attempts
    ensures Safe(v)
  {
    forall i | 0 <= i < |v.attempts| ensures Sound(v, v.attempts[i]) {
      SoundSurvives(w, v, w.attempts[i]);
    }
  }

  // ---- every operation keeps it

  /** Recording no new id. */
  ghost predicate SameIds(a: Attempt, b: Attempt) {
    a.keycloakUserId == b.keycloakUserId && a.deviceProfileId == b.deviceProfileId && a.mobileNumber == b.mobileNumber
  }

  lemma AdvanceSafe(w: World, id: nat, to: Step, find: Mode, save: Mode)
    requires Safe(w)
    requires Live(w, id) && to == KEYCLOAK_USER_CREATED ==> w.attempts[id].keycloakUserId.Some?
    requires Live(w, id) && to == DEVICE_REGISTERED ==> w.attempts[id].deviceProfileId.Some?
    ensures var v := Advance(w, id, to, find, save).w;
      Safe(v) && Evolves(w, v) && Only(w, v, id)
  {
    var v := Advance(w, id, to, find, save).w;
    if Live(w, id) {
      assert Sound(w, w.attempts[id]);
      assert SameIds(w.attempts[id], v.attempts[id]);
      SafeAfter(w, v, id);
    }
  }

  lemma RollbackSafe(w: World, id: nat, atStep: Step, plan: Plan<Point>)
    requires Safe(w)
    ensures var v := Rollback(w, id, atStep, plan).w;
      Safe(v) && Evolves(w, v) && v.attempts == w.attempts && v.challenges == w.challenges
  {
    SafeFrame(w, Rollback(w, id, atStep, plan).w);
  }

  lemma NotedSafe(w: World, id: nat, reason: SagaError, save: Mode)
    requires Safe(w) && Live(w, id)
    ensures var v := Write(w, save, SetAttempt(w, id, w.attempts[id].(failureReason := Some(reason)))).w;
      && Safe(v) && Evolves(w, v) && Only(w, v, id)
      && SameIds(w.attempts[id], v.attempts[id]) && v.attempts[id].currentStep == w.attempts[id].currentStep
  {
    var v := Write(w, save, SetAttempt(w, id, w.attempts[id].(failureReason := Some(reason)))).w;
    assert Sound(w, w.attempts[id]);
    assert Sound(v, v.attempts[id]);
    SafeAfter(w, v, id);
  }

  lemma FailSafe(w: World, id: nat, atStep: Step, reason: SagaError, plan: Plan<Point>)
    requires Safe(w)
    ensures var v := Fail(w, id, atStep, reason, plan).w;
      && Safe(v) && Evolves(w, v) && Only(w, v, id)
      && (id < |w.attempts| ==>
            SameIds(w.attempts[id], v.attempts[id]) && v.attempts[id].currentStep == w.attempts[id].currentStep)
  {
    if At(plan, FailFind).Works? {
      if Live(w, id) {
        var saved := Write(w, At(plan, FailSave), SetAttempt(w, id, w.attempts[id].(failureReason := Some(reason))));
        NotedSafe(w, id, reason, At(plan, FailSave));
        RollbackSafe(saved.w, id, atStep, plan);
        EvolvesTransitive(w, saved.w, Rollback(saved.w, id, atStep, plan).w);
      } else {
        RollbackSafe(w, id, atStep, plan);
      }
    }
  }

  lemma CaughtSafe(w: World, tried: Progress, id: nat, atStep: Step, plan: Plan<Point>)
    requires Safe(tried.w) && Evolves(w, tried.w) && Only(w, tried.w, id)
    ensures var v := Caught(tried, id, atStep, plan).w;
      Safe(v) && Evolves(w, v) && Only(w, v, id)
  {
    if tried.exit.Threw? {
      FailSafe(tried.w, id, atStep, tried.exit.error, plan);
      EvolvesTransitive(w, tried.w, Fail(tried.w, id, atStep, tried.exit.error, plan).w);
    }
  }

  lemma ReturnedSafe(w: World, caught: Progress, id: nat, to: Step, plan: Plan<Point>)
    requires Safe(caught.w) && Evolves(w, caught.w) && Only(w, caught.w, id)
    requires caught.exit.Go? && Live(caught.w, id) && to == KEYCLOAK_USER_CREATED ==>
      caught.w.attempts[id].keycloakUserId.Some?
    requires caught.exit.Go? && Live(caught.w, id) && to == DEVICE_REGISTERED ==>
      caught.w.attempts[id].deviceProfileId.Some?
    ensures var v := Returned(caught, id, to, plan).w;
      Safe(v) && Evolves(w, v) && Only(w, v, id)
  {
    if caught.exit.Go? {
      AdvanceSafe(caught.w, id, to, At(plan, AdvanceFind), At(plan, AdvanceSave));
      EvolvesTransitive(w, caught.w, Returned(caught, id, to, plan).w);
    }
  }

  /** Ids no attempt has recorded. */
  ghost predicate NewIds(w: World, user: Option<nat>, device: Option<nat>) {
    && (user.Some? ==> forall i | 0 <= i < |w.attempts| :: w.attempts[i].keycloakUserId != user)
    && (device.Some? ==> forall i | 0 <= i < |w.attempts| :: w.attempts[i].deviceProfileId != device)
  }

  lemma RecordUserSafe(w: World, id: nat, user: nat, plan: Plan<Point>)
    requires Safe(w) && id < |w.attempts| && w.attempts[id].currentStep == CREDENTIALS_SET
    requires user < |w.users| && w.users[user].username == w.attempts[id].mobileNumber
    requires "RETAIL_CUSTOMER" in w.users[user].roles && NewIds(w, Some(user), None)
    ensures var p := Record(w, id, Some(user), None, plan);
      && Safe(p.w) && Evolves(w, p.w) && Only(w, p.w, id)
      && (p.exit.Go? ==> p.w.attempts[id].keycloakUserId.Some?)
  {
    if At(plan, FindAgain).Works? && Live(w, id) {
      var saved := Write(w, At(plan, SaveId), SetAttempt(w, id, w.attempts[id].(keycloakUserId := Some(user))));
      assert Sound(w, w.attempts[id]);
      assert Sound(saved.w, saved.w.attempts[id]);
      SafeAfter(w, saved.w, id);
    }
  }

  lemma RecordDeviceSafe(w: World, id: nat, device: nat, plan: Plan<Point>)
    requires Safe(w) && id < |w.attempts| && w.attempts[id].currentStep == KEYCLOAK_USER_CREATED
    requires device < |w.devices| && Some(w.devices[device].userId) == w.attempts[id].keycloakUserId
    requires NewIds(w, None, Some(device))
    ensures var p := Record(w, id, None, Some(device), plan);
      && Safe(p.w) && Evolves(w, p.w) && Only(w, p.w, id)
      && (p.exit.Go? ==> p.w.attempts[id].deviceProfileId.Some?)
  {
    if At(plan, FindAgain).Works? && Live(w, id) {
      var saved := Write(w, At(plan, SaveId), SetAttempt(w, id, w.attempts[id].(deviceProfileId := Some(device))));
      assert Sound(w, w.attempts[id]);
      assert Sound(saved.w, saved.w.attempts[id]);
      SafeAfter(w, saved.w, id);
    }
  }

  lemma GrantedSafe(w: World, id: nat, plan: Plan<Point>)
    requires Safe(w) && Live(w, id) && CreateKeycloakUser(w, w.attempts[id].mobileNumber, plan).exit.Go?
    ensures var created := CreateKeycloakUser(w, w.attempts[id].mobileNumber, plan).w;
      && |created.users| == |w.users| + 1
      && var granted := Write(created, At(plan, AssignRole), GrantRole(created, |w.users|, "RETAIL_CUSTOMER")).w;
         Safe(granted) && Evolves(w, granted) && granted.attempts == w.attempts
  {
    var created := CreateKeycloakUser(w, w.attempts[id].mobileNumber, plan).w;
    var granted := Write(created, At(plan, AssignRole), GrantRole(created, |w.users|, "RETAIL_CUSTOMER")).w;
    SafeFrame(w, created);
    SafeFrame(created, granted);
    EvolvesTransitive(w, created, granted);
  }

  lemma ProvisionSafe(w: World, id: nat, plan: Plan<Point>)
    requires Safe(w) && Live(w, id) && w.attempts[id].currentStep == CREDENTIALS_SET
    ensures var p := Provision(w, id, w.attempts[id].mobileNumber, plan);
      && Safe(p.w) && Evolves(w, p.w) && Only(w, p.w, id)
      && (p.exit.Go? ==> p.w.attempts[id].keycloakUserId.Some?)
  {
    var mobile := w.attempts[id].mobileNumber;
    var created := CreateKeycloakUser(w, mobile, plan);
    SafeFrame(w, created.w);
    if created.exit.Go? {
      var user := |w.users|;
      GrantedSafe(w, id, plan);
      var granted := Write(created.w, At(plan, AssignRole), GrantRole(created.w, user, "RETAIL_CUSTOMER"));
      if granted.exit.Go? {
        forall i | 0 <= i < |w.attempts| ensures granted.w.attempts[i].keycloakUserId != Some(user) {
          assert Sound(w, w.attempts[i]);
        }
        RecordUserSafe(granted.w, id, user, plan);
        EvolvesTransitive(w, granted.w, Provision(w, id, mobile, plan).w);
      }
    }
  }

  lemma CredentialsSafe(w: World, id: nat, plan: Plan<Point>)
    requires Safe(w)
    ensures var v := CreateCredentials(w, id, plan).w;
      Safe(v) && Evolves(w, v) && Only(w, v, id)
  {
    if At(plan, FindAttempt).Works? && Live(w, id) {
      var attempt := w.attempts[id];
      if attempt.currentStep == OTP_VERIFIED {
        AdvanceSafe(w, id, CREDENTIALS_SET, At(plan, StartFind), At(plan, StartSave));
        var started := Advance(w, id, CREDENTIALS_SET, At(plan, StartFind), At(plan, StartSave));
        if started.exit.Go? {
          ProvisionCaughtSafe(w, started.w, id, plan);
        }
      } else if attempt.currentStep == CREDENTIALS_SET {
        ProvisionCaughtSafe(w, w, id, plan);
      }
    }
  }

  lemma ProvisionCaughtSafe(w: World, started: World, id: nat, plan: Plan<Point>)
    requires Safe(started) && Evolves(w, started) && Only(w, started, id)
    requires Live(started, id) && started.attempts[id].currentStep == CREDENTIALS_SET
    ensures var tried := Provision(started, id, started.attempts[id].mobileNumber, plan);
      var v := Returned(Caught(tried, id, CREDENTIALS_SET, plan), id, KEYCLOAK_USER_CREATED, plan).w;
      Safe(v) && Evolves(w, v) && Only(w, v, id)
  {
    ProvisionSafe(started, id, plan);
    var tried := Provision(started, id, started.attempts[id].mobileNumber, plan);
    EvolvesTransitive(w, started, tried.w);
    CaughtSafe(w, tried, id, CREDENTIALS_SET, plan);
    ReturnedSafe(w, Caught(tried, id, CREDENTIALS_SET, plan), id, KEYCLOAK_USER_CREATED, plan);
  }

  lemma LinkSafe(w: World, id: nat, deviceId: string, plan: Plan<Point>)
    requires Safe(w) && Live(w, id) && w.attempts[id].currentStep == KEYCLOAK_USER_CREATED
    ensures w.attempts[id].keycloakUserId.Some?
    ensures var p := Link(w, id, w.attempts[id].keycloakUserId.value, deviceId, plan);
      && Safe(p.w) && Evolves(w, p.w) && Only(w, p.w, id)
      && (p.exit.Go? ==> p.w.attempts[id].deviceProfileId.Some?)
  {
    assert Sound(w, w.attempts[id]);
    var user := w.attempts[id].keycloakUserId.value;
    var created := Write(w, At(plan, CreateDevice), AddDevice(w, user, deviceId));
    SafeFrame(w, created.w);
    if created.exit.Go? {
      forall i | 0 <= i < |w.attempts| ensures w.attempts[i].deviceProfileId != Some(|w.devices|) {
        assert Sound(w, w.attempts[i]);
      }
      RecordDeviceSafe(created.w, id, |w.devices|, plan);
      EvolvesTransitive(w, created.w, Link(w, id, user, deviceId, plan).w);
    }
  }

  lemma DeviceStepSafe(w: World, id: nat, deviceId: string, plan: Plan<Point>)
    requires Safe(w)
    ensures var v := RegisterDevice(w, id, deviceId, plan).w;
      Safe(v) && Evolves(w, v) && Only(w, v, id)
  {
    if At(plan, FindAttempt).Works? && Live(w, id) && w.attempts[id].currentStep == KEYCLOAK_USER_CREATED {
      LinkSafe(w, id, deviceId, plan);
      var linked := Link(w, id, w.attempts[id].keycloakUserId.value, deviceId, plan);
      CaughtSafe(w, linked, id, DEVICE_REGISTERED, plan);
      ReturnedSafe(w, Caught(linked, id, DEVICE_REGISTERED, plan), id, DEVICE_REGISTERED, plan);
    }
  }

  lemma VerifyCodeFrame(
      w: World, challenge: nat, codeHash: string, clock: Otp.Clock, config: Otp.Config, plan: Plan<Point>)
    ensures var v := VerifyCode(w, challenge, codeHash, clock, config, plan).w;
      v == w.(challenges := v.challenges) && Evolves(w, v)
  {
  }

  lemma VerifySafe(
      w: World, id: nat, challenge: nat, codeHash: string, clock: Otp.Clock, config: Otp.Config, plan: Plan<Point>)
    requires Safe(w)
    ensures var v := VerifyOtp(w, id, challenge, codeHash, clock, config, plan).w;
      Safe(v) && Evolves(w, v) && Only(w, v, id)
  {
    var verified := VerifyCode(w, challenge, codeHash, clock, config, plan);
    VerifyCodeFrame(w, challenge, codeHash, clock, config, plan);
    SafeFrame(w, verified.w);
    if Live(w, id) && w.attempts[id].currentStep == INIT && verified.exit.Go? {
      AdvanceSafe(verified.w, id, OTP_VERIFIED, At(plan, AdvanceFind), At(plan, AdvanceSave));
      EvolvesTransitive(w, verified.w, VerifyOtp(w, id, challenge, codeHash, clock, config, plan).w);
    }
  }

  lemma CompleteSafe(w: World, id: nat, plan: Plan<Point>)
    requires Safe(w)
    ensures var v := Complete(w, id, plan).w;
      Safe(v) && Evolves(w, v) && Only(w, v, id)
  {
    AdvanceSafe(w, id, COMPLETED, At(plan, AdvanceFind), At(plan, AdvanceSave));
  }

  lemma DeleteSafe(w: World, id: nat, config: Otp.Config)
    requires Safe(w)
    ensures var v := Next(w, DeleteAttempt(id), config); Safe(v) && Evolves(w, v)
  {
    if Live(w, id) {
      var v := Next(w, DeleteAttempt(id), config);
      assert Sound(w, w.attempts[id]);
      assert SameIds(w.attempts[id], v.attempts[id]);
      SafeAfter(w, v, id);
    }
  }

  lemma StepSafe(w: World, e: Event, config: Otp.Config)
    requires Safe(w)
    ensures Safe(Next(w, e, config)) && Evolves(w, Next(w, e, config))
  {
    match e
    case VerifyStep(id, challenge, codeHash, clock, plan) =>
      VerifySafe(w, id, challenge, codeHash, clock, config, plan);
    case CredentialsStep(id, plan) => CredentialsSafe(w, id, plan);
    case DeviceStep(id, deviceId, plan) => DeviceStepSafe(w, id, deviceId, plan);
    case CompleteStep(id, plan) => CompleteSafe(w, id, plan);
    case DeleteAttempt(id) => DeleteSafe(w, id, config);
    case NewAttempt(mobile, save) => NewAttemptSafe(w, mobile, save);
    case _ => SafeFrame(w, Next(w, e, config));
  }

  lemma NewAttemptSafe(w: World, mobileNumber: string, save: Mode)
    requires Safe(w)
    ensures var v := CreateAttempt(w, mobileNumber, save).w; Safe(v) && Evolves(w, v)
  {
    var v := CreateAttempt(w, mobileNumber, save).w;
    forall i | 0 <= i < |v.attempts| ensures Sound(v, v.attempts[i]) {
      if i < |w.attempts| {
        SoundSurvives(w, v, w.attempts[i]);
      }
    }
  }

  /** In every serial run, whatever fails or crashes: an attempt at or past KEYCLOAK_USER_CREATED has a
      Keycloak user named by its mobile number that holds RETAIL_CUSTOMER, no two attempts share a user
      or a device, and an attempt at or past DEVICE_REGISTERED has a device of that same user. */
  lemma {:induction false} SagaIsSafe(events: seq<Event>, config: Otp.Config)
    ensures Safe(Run(events, config))
  {
    if events != [] {
      SagaIsSafe(events[..|events| - 1], config);
      StepSafe(Run(events[..|events| - 1], config), events[|events| - 1], config);
    }
  }
}
