/** What the saga promises beyond safety: live devices and their undo, progress by following `resume`,
    when a retry can no longer succeed, and one passcode per verified attempt. */
module SagaProgress {
  import opened Outcomes
  import opened Faults
  import opened RegistrationSaga
  import opened SagaRuns
  import Otp = OtpService

  // ---- steps

  lemma {:induction false} RunEvolves(events: seq<Event>, more: seq<Event>, config: Otp.Config)
    ensures Evolves(Run(events, config), Run(events + more, config))
  {
    if more == [] {
      assert events + more == events;
    } else {
      var front := more[..|more| - 1];
      assert (events + more)[..|events + more| - 1] == events + front;
      RunEvolves(events, front, config);
      SagaIsSafe(events + front, config);
      StepSafe(Run(events + front, config), more[|more| - 1], config);
      EvolvesTransitive(Run(events, config), Run(events + front, config), Run(events + more, config));
    }
  }

  /** An advance that goes through moves its attempt by exactly one step; any other moves nothing or,
      when only its reply is lost, that one step. */
  lemma AdvanceIsOneStep(w: World, id: nat, to: Step, find: Mode, save: Mode)
    ensures var p := Advance(w, id, to, find, save);
      && (p.w != w ==> Live(w, id) && Index(p.w.attempts[id].currentStep) == Index(w.attempts[id].currentStep) + 1)
      && (p.exit.Go? ==> Live(p.w, id) && p.w.attempts[id].currentStep == to
                         && Index(to) == Index(w.attempts[id].currentStep) + 1)
  {
  }

  // ---- devices

  ghost predicate AtDeviceStep(w: World, id: nat) {
    Live(w, id) && w.attempts[id].currentStep == KEYCLOAK_USER_CREATED && w.attempts[id].keycloakUserId.Some?
  }

  /** The compensation of a failed device step reaches its undo. */
  ghost predicate Undoes(plan: Plan<Point>) {
    && At(plan, FailFind).Works? && At(plan, FailSave).Works? && At(plan, RollbackFind).Works?
    && At(plan, UndoFind).Works? && TakesEffect(At(plan, UndoDelete))
  }

  ghost predicate DeviceCreated(plan: Plan<Point>) {
    TakesEffect(At(plan, CreateDevice))
  }

  ghost predicate DeviceRecorded(plan: Plan<Point>) {
    At(plan, CreateDevice).Works? && At(plan, FindAgain).Works? && TakesEffect(At(plan, SaveId))
  }

  ghost function LiveDevices(w: World): set<nat> {
    set d: nat | d < |w.devices| && !w.devices[d].deleted
  }

  /** The attempt's device when the compensation looks. */
  ghost function UndoTarget(w: World, id: nat, plan: Plan<Point>): Option<nat>
    requires id < |w.attempts|
  {
    if DeviceRecorded(plan) then Some(|w.devices|) else w.attempts[id].deviceProfileId
  }

  lemma LinkEffect(w: World, id: nat, user: nat, deviceId: string, plan: Plan<Point>)
    requires AtDeviceStep(w, id)
    ensures var p := Link(w, id, user, deviceId, plan);
      && p.w.devices == (if DeviceCreated(plan) then w.devices + [Device(user, deviceId, false)] else w.devices)
      && |p.w.attempts| == |w.attempts| && Live(p.w, id)
      && p.w.attempts[id].deviceProfileId == UndoTarget(w, id, plan)
  {
  }

  lemma FailEffect(w: World, id: nat, reason: SagaError, plan: Plan<Point>)
    requires Live(w, id)
    ensures var p := Fail(w, id, DEVICE_REGISTERED, reason, plan);
      p.w.devices ==
        if Undoes(plan) && w.attempts[id].deviceProfileId.Some? then
          DropDevice(w, w.attempts[id].deviceProfileId.value).devices
        else w.devices
  {
  }

  /** The live devices after a device step, for every plan: the new device when its insert took effect,
      without the device the compensation removed. */
  lemma DeviceStepDevices(w: World, id: nat, deviceId: string, plan: Plan<Point>)
    requires AtDeviceStep(w, id) && At(plan, FindAttempt).Works?
    ensures var user := w.attempts[id].keycloakUserId.value;
      var undone := Link(w, id, user, deviceId, plan).exit.Threw? && Undoes(plan) && UndoTarget(w, id, plan).Some?;
      LiveDevices(RegisterDevice(w, id, deviceId, plan).w) ==
        LiveDevices(w)
        + (if DeviceCreated(plan) then {|w.devices|} else {})
        - (if undone then {UndoTarget(w, id, plan).value} else {})
  {
    var user := w.attempts[id].keycloakUserId.value;
    var linked := Link(w, id, user, deviceId, plan);
    LinkEffect(w, id, user, deviceId, plan);
    assert LiveDevices(linked.w) == LiveDevices(w) + (if DeviceCreated(plan) then {|w.devices|} else {});
    if linked.exit.Threw? {
      FailEffect(linked.w, id, linked.exit.error, plan);
      if Undoes(plan) && UndoTarget(w, id, plan).Some? {
        DropDeviceDrops(linked.w, UndoTarget(w, id, plan).value);
      }
    }
  }

  lemma DropDeviceDrops(w: World, device: nat)
    ensures LiveDevices(DropDevice(w, device)) == LiveDevices(w) - {device}
  {
  }

  /** Every await of the step works, the advance included, or only its reply is lost. */
  ghost predicate GoesThrough(plan: Plan<Point>) {
    && At(plan, CreateDevice).Works? && At(plan, FindAgain).Works? && At(plan, SaveId).Works?
    && At(plan, AdvanceFind).Works? && TakesEffect(At(plan, AdvanceSave))
  }

  lemma LinkStep(w: World, id: nat, user: nat, deviceId: string, plan: Plan<Point>)
    requires AtDeviceStep(w, id)
    ensures var p := Link(w, id, user, deviceId, plan);
      && Live(p.w, id) && p.w.attempts[id].currentStep == KEYCLOAK_USER_CREATED
      && (p.exit.Go? <==> At(plan, CreateDevice).Works? && At(plan, FindAgain).Works? && At(plan, SaveId).Works?)
  {
  }

  lemma DeviceStepStep(w: World, id: nat, deviceId: string, plan: Plan<Point>)
    requires AtDeviceStep(w, id) && At(plan, FindAttempt).Works?
    ensures var v := RegisterDevice(w, id, deviceId, plan).w;
      && id < |v.attempts|
      && v.attempts[id].deviceProfileId == UndoTarget(w, id, plan)
      && v.attempts[id].currentStep == if GoesThrough(plan) then DEVICE_REGISTERED else KEYCLOAK_USER_CREATED
  {
    var user := w.attempts[id].keycloakUserId.value;
    LinkEffect(w, id, user, deviceId, plan);
    LinkStep(w, id, user, deviceId, plan);
    var linked := Link(w, id, user, deviceId, plan);
    if linked.exit.Threw? {
      FailKeepsAttempt(linked.w, id, linked.exit.error, plan);
    }
  }

  lemma FailKeepsAttempt(w: World, id: nat, reason: SagaError, plan: Plan<Point>)
    requires Live(w, id)
    ensures var v := Fail(w, id, DEVICE_REGISTERED, reason, plan).w;
      && |v.attempts| == |w.attempts| && v.attempts[id].currentStep == w.attempts[id].currentStep
      && v.attempts[id].deviceProfileId == w.attempts[id].deviceProfileId
  {
  }

  /** A device step keeps every registered attempt's device live, whatever fails: the undo runs only after
      the awaits that precede the advance. */
  lemma DeviceStepKeepsLive(w: World, id: nat, deviceId: string, plan: Plan<Point>)
    requires Safe(w) && DevicesLive(w) && AtDeviceStep(w, id) && At(plan, FindAttempt).Works?
    ensures DevicesLive(RegisterDevice(w, id, deviceId, plan).w)
  {
    var v := RegisterDevice(w, id, deviceId, plan).w;
    DeviceStepSafe(w, id, deviceId, plan);
    DeviceStepDevices(w, id, deviceId, plan);
    DeviceStepStep(w, id, deviceId, plan);
    forall i | 0 <= i < |v.attempts| && i != id
      ensures DeviceLive(v, v.attempts[i])
    {
      assert DeviceLive(w, w.attempts[i]) && Sound(w, w.attempts[i]) && Sound(w, w.attempts[id]);
      if Index(w.attempts[i].currentStep) >= Index(DEVICE_REGISTERED) {
        var d := w.attempts[i].deviceProfileId.value;
        assert d in LiveDevices(w);
        assert !Clash(w.attempts[i], w.attempts[id]) && !Clash(w.attempts[id], w.attempts[i]);
        assert d in LiveDevices(v);
      }
    }
    if v.attempts[id].currentStep == DEVICE_REGISTERED {
      LinkStep(w, id, w.attempts[id].keycloakUserId.value, deviceId, plan);
      assert |w.devices| in LiveDevices(v);
    }
  }

  /** The step inserts no device and undoes none, or it undoes the one it inserted: the save of its id took
      effect, the reply was lost, and the compensation ran to its end. */
  ghost predicate LeavesNoTrace(w: World, id: nat, plan: Plan<Point>)
    requires id < |w.attempts|
  {
    if DeviceCreated(plan) then
      At(plan, CreateDevice).Works? && At(plan, FindAgain).Works? && At(plan, SaveId).LosesReply? && Undoes(plan)
    else
      var earlier := w.attempts[id].deviceProfileId;
      !(At(plan, CreateDevice).Throws? && Undoes(plan) && earlier.Some? && LiveDevice(w, earlier.value))
  }

  /** A device step that does not take its attempt forward leaves the live devices as they were exactly in
      these cases. */
  lemma FailedStepKeepsDevicesIff(w: World, id: nat, deviceId: string, plan: Plan<Point>)
    requires Safe(w) && AtDeviceStep(w, id) && At(plan, FindAttempt).Works? && !GoesThrough(plan)
    ensures LiveDevices(RegisterDevice(w, id, deviceId, plan).w) == LiveDevices(w) <==> LeavesNoTrace(w, id, plan)
  {
    var user := w.attempts[id].keycloakUserId.value;
    DeviceStepDevices(w, id, deviceId, plan);
    LinkStep(w, id, user, deviceId, plan);
    LinkThrows(w, id, user, deviceId, plan);
    assert Sound(w, w.attempts[id]);
    assert |w.devices| !in LiveDevices(w);
    var v := RegisterDevice(w, id, deviceId, plan).w;
    assert DeviceCreated(plan) && !LeavesNoTrace(w, id, plan) ==> |w.devices| in LiveDevices(v);
  }

  lemma LinkThrows(w: World, id: nat, user: nat, deviceId: string, plan: Plan<Point>)
    requires AtDeviceStep(w, id)
    ensures DeviceCreated(plan) && DeviceRecorded(plan) ==>
      (Link(w, id, user, deviceId, plan).exit.Threw? <==> At(plan, SaveId).LosesReply?)
    ensures !DeviceCreated(plan) ==>
      (Link(w, id, user, deviceId, plan).exit.Threw? <==> At(plan, CreateDevice).Throws?)
  {
  }

  /** A rejected advance is not caught, so its device stays live while its attempt stays where it was; a
      retry that works registers another device, and then no attempt names the first one. */
  lemma RejectedAdvanceLeaksDevice(w: World, id: nat, deviceId: string, plan: Plan<Point>, again: string)
    requires Safe(w) && AtDeviceStep(w, id) && At(plan, FindAttempt).Works? && !GoesThrough(plan)
    requires At(plan, CreateDevice).Works? && At(plan, FindAgain).Works? && At(plan, SaveId).Works?
    ensures var v, n := RegisterDevice(w, id, deviceId, plan).w, |w.devices|;
      && LiveDevices(v) == LiveDevices(w) + {n} && n !in LiveDevices(w)
      && v.attempts[id].currentStep == KEYCLOAK_USER_CREATED
      && var u := RegisterDevice(v, id, again, map[]).w;
         && LiveDevices(u) == LiveDevices(w) + {n, n + 1} && u.attempts[id].currentStep == DEVICE_REGISTERED
         && forall i | 0 <= i < |u.attempts| :: u.attempts[i].deviceProfileId != Some(n)
  {
    var v, n := RegisterDevice(w, id, deviceId, plan).w, |w.devices|;
    var user := w.attempts[id].keycloakUserId.value;
    LinkStep(w, id, user, deviceId, plan);
    DeviceStepDevices(w, id, deviceId, plan);
    DeviceStepStep(w, id, deviceId, plan);
    DeviceStepSafe(w, id, deviceId, plan);
    LeakedStep(w, id, deviceId, plan);
    var u := RegisterDevice(v, id, again, map[]).w;
    LinkStep(v, id, user, again, map[]);
    DeviceStepDevices(v, id, again, map[]);
    DeviceStepStep(v, id, again, map[]);
    DeviceStepSafe(v, id, again, map[]);
    forall i | 0 <= i < |u.attempts| ensures u.attempts[i].deviceProfileId != Some(n) {
      if i != id {
        assert u.attempts[i] == v.attempts[i] == w.attempts[i];
        assert Sound(w, w.attempts[i]);
      }
    }
  }

  lemma LeakedStep(w: World, id: nat, deviceId: string, plan: Plan<Point>)
    requires AtDeviceStep(w, id) && At(plan, FindAttempt).Works? && !GoesThrough(plan)
    requires At(plan, CreateDevice).Works? && At(plan, FindAgain).Works? && At(plan, SaveId).Works?
    ensures var v := RegisterDevice(w, id, deviceId, plan).w;
      && AtDeviceStep(v, id) && v.attempts[id].keycloakUserId == w.attempts[id].keycloakUserId
      && |v.devices| == |w.devices| + 1
  {
  }

  /** What a credentials call can do: devices and challenges stay, and so does every attempt but for
      `id`, which keeps its device and ends at KEYCLOAK_USER_CREATED at most. */
  ghost predicate CredentialsOnly(w: World, v: World, id: nat) {
    && v.devices == w.devices && v.challenges == w.challenges && Only(w, v, id)
    && (id < |w.attempts| && v.attempts[id] != w.attempts[id] ==>
          && v.attempts[id].deviceProfileId == w.attempts[id].deviceProfileId
          && Index(OTP_VERIFIED) <= Index(w.attempts[id].currentStep) <= Index(CREDENTIALS_SET)
          && Index(w.attempts[id].currentStep) <= Index(v.attempts[id].currentStep) <= Index(KEYCLOAK_USER_CREATED))
  }

  lemma FailOnly(w: World, v: World, id: nat, reason: SagaError, plan: Plan<Point>)
    requires CredentialsOnly(w, v, id) && Live(v, id)
    requires Index(OTP_VERIFIED) <= Index(w.attempts[id].currentStep) <= Index(CREDENTIALS_SET)
    ensures CredentialsOnly(w, Fail(v, id, CREDENTIALS_SET, reason, plan).w, id)
  {
  }

  /** Provisioning changes the users, and may then record the new one. */
  lemma ProvisionIs(w: World, id: nat, mobileNumber: string, plan: Plan<Point>) returns (u: World)
    ensures u == w.(users := u.users)
    ensures var p := Provision(w, id, mobileNumber, plan);
      p.w == u || p.w == Record(u, id, Some(|w.users|), None, plan).w
  {
    u := CreateKeycloakUser(w, mobileNumber, plan).w;
    if CreateKeycloakUser(w, mobileNumber, plan).exit.Go? {
      u := Write(u, At(plan, AssignRole), GrantRole(u, |w.users|, "RETAIL_CUSTOMER")).w;
    }
  }

  lemma RecordOnly(w: World, u: World, id: nat, user: nat, plan: Plan<Point>)
    requires CredentialsOnly(w, u, id) && Live(u, id) && u.attempts[id].currentStep == CREDENTIALS_SET
    requires Index(OTP_VERIFIED) <= Index(w.attempts[id].currentStep) <= Index(CREDENTIALS_SET)
    ensures var p := Record(u, id, Some(user), None, plan);
      CredentialsOnly(w, p.w, id) && Live(p.w, id) && p.w.attempts[id].currentStep == CREDENTIALS_SET
  {
  }

  lemma ProvisionOnly(w: World, v: World, id: nat, plan: Plan<Point>)
    requires CredentialsOnly(w, v, id) && Live(v, id) && v.attempts[id].currentStep == CREDENTIALS_SET
    requires Index(OTP_VERIFIED) <= Index(w.attempts[id].currentStep) <= Index(CREDENTIALS_SET)
    ensures var p := Provision(v, id, v.attempts[id].mobileNumber, plan);
      CredentialsOnly(w, p.w, id) && Live(p.w, id) && p.w.attempts[id].currentStep == CREDENTIALS_SET
  {
    var u := ProvisionIs(v, id, v.attempts[id].mobileNumber, plan);
    RecordOnly(w, u, id, |v.users|, plan);
  }

  lemma AdvanceOnly(w: World, v: World, id: nat, plan: Plan<Point>)
    requires CredentialsOnly(w, v, id) && Live(v, id) && v.attempts[id].currentStep == CREDENTIALS_SET
    requires Index(OTP_VERIFIED) <= Index(w.attempts[id].currentStep) <= Index(CREDENTIALS_SET)
    ensures CredentialsOnly(
      w, Advance(v, id, KEYCLOAK_USER_CREATED, At(plan, AdvanceFind), At(plan, AdvanceSave)).w, id)
  {
  }

  lemma CredentialsStepOnly(w: World, id: nat, plan: Plan<Point>)
    ensures CredentialsOnly(w, CreateCredentials(w, id, plan).w, id)
  {
    if At(plan, FindAttempt).Works? && Live(w, id) {
      var attempt := w.attempts[id];
      if attempt.currentStep == OTP_VERIFIED || attempt.currentStep == CREDENTIALS_SET {
        var started :=
          if attempt.currentStep == OTP_VERIFIED then
            Advance(w, id, CREDENTIALS_SET, At(plan, StartFind), At(plan, StartSave))
          else Progress(w, Go);
        assert CredentialsOnly(w, started.w, id);
        if started.exit.Go? {
          ProvisionOnly(w, started.w, id, plan);
          var tried := Provision(started.w, id, attempt.mobileNumber, plan);
          if tried.exit.Threw? {
            FailOnly(w, tried.w, id, tried.exit.error, plan);
          } else if tried.exit.Go? {
            AdvanceOnly(w, tried.w, id, plan);
          }
        }
      }
    }
  }

  /** The event is a device step that gets past its checks. */
  ghost predicate LinksDevice(w: World, e: Event) {
    e.DeviceStep? && AtDeviceStep(w, e.id) && At(e.plan, FindAttempt).Works?
  }

  lemma VerifyOnly(
      w: World, id: nat, challenge: nat, codeHash: string, clock: Otp.Clock, config: Otp.Config, plan: Plan<Point>)
    ensures var v := VerifyOtp(w, id, challenge, codeHash, clock, config, plan).w;
      && v.devices == w.devices && v.users == w.users && Only(w, v, id)
      && (id < |w.attempts| && v.attempts[id] != w.attempts[id] ==>
            w.attempts[id].currentStep == INIT && v.attempts[id] == w.attempts[id].(currentStep := OTP_VERIFIED))
  {
    VerifyCodeFrame(w, challenge, codeHash, clock, config, plan);
  }

  lemma IdleDeviceStep(w: World, id: nat, deviceId: string, plan: Plan<Point>)
    requires Safe(w) && !LinksDevice(w, DeviceStep(id, deviceId, plan))
    ensures RegisterDevice(w, id, deviceId, plan).w == w
  {
    if Live(w, id) {
      assert Sound(w, w.attempts[id]);
    }
  }

  /** Outside device steps no device changes, and an attempt is at DEVICE_REGISTERED or later only if it
      was before, with the same device. */
  lemma OtherStepsKeepDevices(w: World, e: Event, i: nat, config: Otp.Config)
    requires !LinksDevice(w, e) && Safe(w)
    ensures Next(w, e, config).devices == w.devices
    ensures i < |Next(w, e, config).attempts| ==>
      var b := Next(w, e, config).attempts[i];
      Index(b.currentStep) >= Index(DEVICE_REGISTERED) ==>
        && i < |w.attempts| && b.deviceProfileId == w.attempts[i].deviceProfileId
        && Index(w.attempts[i].currentStep) >= Index(DEVICE_REGISTERED)
  {
    match e
    case CredentialsStep(id, plan) => CredentialsStepOnly(w, id, plan);
    case VerifyStep(id, challenge, codeHash, clock, plan) =>
      VerifyOnly(w, id, challenge, codeHash, clock, config, plan);
    case DeviceStep(id, deviceId, plan) => IdleDeviceStep(w, id, deviceId, plan);
    case CompleteStep(id, plan) => CompleteOnly(w, id, plan);
    case _ =>
  }

  lemma CompleteOnly(w: World, id: nat, plan: Plan<Point>)
    ensures var v := Complete(w, id, plan).w;
      v == w || (Live(w, id) && w.attempts[id].currentStep == DEVICE_REGISTERED
                 && v == SetAttempt(w, id, w.attempts[id].(currentStep := COMPLETED)))
  {
  }

  lemma OtherStepsKeepLive(w: World, e: Event, config: Otp.Config)
    requires !LinksDevice(w, e) && Safe(w) && DevicesLive(w)
    ensures DevicesLive(Next(w, e, config))
  {
    var v := Next(w, e, config);
    forall i | 0 <= i < |v.attempts|
      ensures DeviceLive(v, v.attempts[i])
    {
      OtherStepsKeepDevices(w, e, i, config);
      if Index(v.attempts[i].currentStep) >= Index(DEVICE_REGISTERED) {
        assert DeviceLive(w, w.attempts[i]);
      }
    }
  }

  /** In every serial run, whatever fails or crashes, each attempt at or past DEVICE_REGISTERED has a live
      device of its own user. */
  lemma {:induction false} RegisteredDevicesAreLive(events: seq<Event>, config: Otp.Config)
    ensures DevicesLive(Run(events, config)) && Safe(Run(events, config))
  {
    SagaIsSafe(events, config);
    if events != [] {
      var front, e := events[..|events| - 1], events[|events| - 1];
      RegisteredDevicesAreLive(front, config);
      var w := Run(front, config);
      if LinksDevice(w, e) {
        DeviceStepKeepsLive(w, e.id, e.deviceId, e.plan);
      } else {
        OtherStepsKeepLive(w, e, config);
      }
    }
  }
}
