/** What a failed step of the registration saga records, undoes and throws
    (auth/registration/registration-orchestrator.service.ts, compensation.service.ts), stated on the rows
    for every plan of failures, and over every serial run. */
module SagaFailures {
  import opened Outcomes
  import opened Faults
  import opened RegistrationSaga
  import opened SagaRuns
  import opened SagaProgress
  import opened SagaCompletion
  import Otp = OtpService

  /** How an await is left. */
  function Awaited(plan: Plan<Point>, point: Point): Exit {
    Leaves(At(plan, point), Unavailable)
  }

  /** One await after another: the first that does not go through decides. */
  function Then(first: Exit, second: Exit): Exit {
    if first.Go? then second else first
  }

  // ---- the undo

  /** The row after an undo of the step: CREDENTIALS_SET takes back the stored credential of the attempt's
      user, KEYCLOAK_USER_CREATED disables that user, DEVICE_REGISTERED deletes the attempt's device; no
      other row changes. */
  ghost predicate Undone(w: World, v: World, a: Attempt, atStep: Step, done: bool) {
    && v.challenges == w.challenges
    && (forall user: nat :: user in v.credentials <==>
          user in w.credentials && !(done && atStep == CREDENTIALS_SET && a.keycloakUserId == Some(user)))
    && |v.users| == |w.users|
    && (forall user: nat | user < |w.users| ::
          if done && atStep == KEYCLOAK_USER_CREATED && a.keycloakUserId == Some(user) then
            v.users[user] == KeycloakUser(w.users[user].username, false, w.users[user].roles)
          else v.users[user] == w.users[user])
    && |v.devices| == |w.devices|
    && (forall device: nat | device < |w.devices| ::
          if done && atStep == DEVICE_REGISTERED && a.deviceProfileId == Some(device) then
            v.devices[device] == Device(w.devices[device].userId, w.devices[device].deviceId, true)
          else v.devices[device] == w.devices[device])
  }

  /** The awaits of the undo itself take effect. */
  ghost predicate UndoWorks(plan: Plan<Point>) {
    At(plan, RollbackFind) == Works && At(plan, UndoFind) == Works && TakesEffect(At(plan, UndoDelete))
  }

  ghost predicate UndoCrashes(plan: Plan<Point>) {
    At(plan, UndoFind) == Crashes || At(plan, UndoDelete) == Crashes
  }

  /** A compensation undoes the step's row and nothing else; errors of the undo are swallowed. */
  lemma RollbackUndoes(w: World, id: nat, atStep: Step, plan: Plan<Point>)
    requires Live(w, id)
    ensures var p := Rollback(w, id, atStep, plan);
      && p.w.attempts == w.attempts && Undone(w, p.w, w.attempts[id], atStep, UndoWorks(plan))
      && (p.exit == Awaited(plan, RollbackFind) || (p.exit == Crashed && UndoCrashes(plan)))
  {
  }

  /** Without an attempt there is nothing to undo. */
  lemma RollbackWithoutAttempt(w: World, id: nat, atStep: Step, plan: Plan<Point>)
    requires !Live(w, id)
    ensures Rollback(w, id, atStep, plan) == Progress(w, Awaited(plan, RollbackFind))
  {
  }

  // ---- the failure

  /** The find and the save of `fail` take effect. */
  ghost predicate Notes(plan: Plan<Point>) {
    At(plan, FailFind) == Works && TakesEffect(At(plan, FailSave))
  }

  ghost predicate Compensates(plan: Plan<Point>) {
    At(plan, FailFind) == Works && At(plan, FailSave) == Works && UndoWorks(plan)
  }

  /** How `fail` and its compensation are left. */
  function FailureHandled(plan: Plan<Point>): Exit {
    Then(Awaited(plan, FailFind), Then(Awaited(plan, FailSave), Awaited(plan, RollbackFind)))
  }

  ghost predicate WithReason(a: Attempt, b: Attempt, reason: Option<SagaError>) {
    b == Attempt(a.mobileNumber, a.currentStep, reason, a.keycloakUserId, a.deviceProfileId, a.deleted)
  }

  /** `fail` records the reason on the attempt, changes nothing else of any attempt, then compensates. */
  lemma FailNotes(w: World, id: nat, atStep: Step, reason: SagaError, plan: Plan<Point>)
    requires Live(w, id)
    ensures var p := Fail(w, id, atStep, reason, plan);
      && Only(w, p.w, id)
      && WithReason(w.attempts[id], p.w.attempts[id],
                    if Notes(plan) then Some(reason) else w.attempts[id].failureReason)
      && Undone(w, p.w, w.attempts[id], atStep, Compensates(plan))
      && (p.exit == FailureHandled(plan) || (p.exit == Crashed && UndoCrashes(plan)))
  {
    if At(plan, FailFind).Works? && TakesEffect(At(plan, FailSave)) {
      var v := SetAttempt(w, id, w.attempts[id].(failureReason := Some(reason)));
      RollbackUndoes(v, id, atStep, plan);
    }
  }

  /** What is left of a step whose `try` was left this way, before the advance: the reason it threw, on the
      attempt; its undo; and the same error for the caller, unless handling it failed. */
  ghost predicate Handled(tried: Progress, p: Progress, id: nat, atStep: Step, plan: Plan<Point>)
    requires id < |tried.w.attempts|
  {
    var a := tried.w.attempts[id];
    && Only(tried.w, p.w, id)
    && Undone(tried.w, p.w, a, atStep, tried.exit.Threw? && Compensates(plan))
    && WithReason(a, p.w.attempts[id],
         if tried.exit.Threw? && Notes(plan) then Some(tried.exit.error) else a.failureReason)
    && (if tried.exit.Threw? then
          p.exit == Then(FailureHandled(plan), tried.exit) || (p.exit == Crashed && UndoCrashes(plan))
        else p.exit == tried.exit)
  }

  lemma CaughtIsHandled(tried: Progress, id: nat, atStep: Step, plan: Plan<Point>)
    requires Live(tried.w, id)
    ensures Handled(tried, Caught(tried, id, atStep, plan), id, atStep, plan)
  {
    if tried.exit.Threw? {
      FailNotes(tried.w, id, atStep, tried.exit.error, plan);
    }
  }

  // ---- create-credentials

  /** How the awaits of its `try` are left: Keycloak refuses a taken username. */
  ghost function CredentialsTry(w: World, mobileNumber: string, plan: Plan<Point>): Exit {
    var created :=
      if At(plan, CreateUser) == Works && exists i | 0 <= i < |w.users| :: w.users[i].username == mobileNumber
        then Threw(UsernameTaken)
      else if exists i | 0 <= i < |w.users| :: w.users[i].username == mobileNumber then Awaited(plan, CreateUser)
      else Then(Awaited(plan, CreateUser), Awaited(plan, SetPassword));
    Then(created, Then(Awaited(plan, AssignRole), Then(Awaited(plan, FindAgain), Awaited(plan, SaveId))))
  }

  lemma ProvisionIsLeft(w: World, id: nat, plan: Plan<Point>)
    requires Live(w, id)
    ensures var p := Provision(w, id, w.attempts[id].mobileNumber, plan);
      && p.exit == CredentialsTry(w, w.attempts[id].mobileNumber, plan)
      && Live(p.w, id) && p.w.attempts[id].failureReason == w.attempts[id].failureReason
      && p.w.credentials == w.credentials && UserAdded(w, p.w, w.attempts[id].mobileNumber, plan)
  {
    assert {} + {"RETAIL_CUSTOMER"} == {"RETAIL_CUSTOMER"};
  }

  /** The users after a credentials call: no older one changes, and a new one, when the request to make it takes
      effect for a free name, is enabled, named by the number, and a customer once that was granted. */
  ghost predicate UserAdded(w: World, v: World, mobileNumber: string, plan: Plan<Point>) {
    var free := forall i | 0 <= i < |w.users| :: w.users[i].username != mobileNumber;
    var granted := At(plan, CreateUser) == At(plan, SetPassword) == Works && TakesEffect(At(plan, AssignRole));
    v.users == w.users + if free && TakesEffect(At(plan, CreateUser)) then
                           [KeycloakUser(mobileNumber, true, if granted then {"RETAIL_CUSTOMER"} else {})]
                         else []
  }

  /** A credentials call whose `try` is left this way: its reason, its exit, the credential it takes back and
      the user it added. */
  ghost predicate CredentialsLeft(w: World, p: Progress, id: nat, tried: Exit, plan: Plan<Point>)
    requires id < |w.attempts|
  {
    && id < |p.w.attempts|
    && p.w.attempts[id].failureReason ==
         (if tried.Threw? && Notes(plan) then Some(tried.error) else w.attempts[id].failureReason)
    && (match tried
        case Go => p.exit == Then(Awaited(plan, AdvanceFind), Awaited(plan, AdvanceSave))
        case Crashed => p.exit == Crashed
        case Threw(error) =>
          p.exit == Then(FailureHandled(plan), Threw(error)) || (p.exit == Crashed && UndoCrashes(plan)))
    && (forall user: nat :: user in p.w.credentials <==>
          && user in w.credentials
          && !(tried.Threw? && Compensates(plan) && p.w.attempts[id].keycloakUserId == Some(user)))
    && UserAdded(w, p.w, w.attempts[id].mobileNumber, plan)
  }

  lemma StartedCredentials(w: World, id: nat, plan: Plan<Point>)
    requires Live(w, id) && w.attempts[id].currentStep == CREDENTIALS_SET
    ensures var number := w.attempts[id].mobileNumber;
      var caught := Caught(Provision(w, id, number, plan), id, CREDENTIALS_SET, plan);
      CredentialsLeft(w, Returned(caught, id, KEYCLOAK_USER_CREATED, plan), id, CredentialsTry(w, number, plan), plan)
  {
    var tried := Provision(w, id, w.attempts[id].mobileNumber, plan);
    ProvisionIsLeft(w, id, plan);
    ProvisionUsersStep(w, id, plan);
    CaughtIsHandled(tried, id, CREDENTIALS_SET, plan);
    if tried.exit.Go? {
      ReturnedIsLeft(tried.w, id, plan);
    }
  }

  lemma ProvisionUsersStep(w: World, id: nat, plan: Plan<Point>)
    requires Live(w, id)
    ensures Provision(w, id, w.attempts[id].mobileNumber, plan).w.attempts[id].currentStep == w.attempts[id].currentStep
  {
  }

  lemma ReturnedIsLeft(w: World, id: nat, plan: Plan<Point>)
    requires Live(w, id) && w.attempts[id].currentStep == CREDENTIALS_SET
    ensures var p := Advance(w, id, KEYCLOAK_USER_CREATED, At(plan, AdvanceFind), At(plan, AdvanceSave));
      && p.exit == Then(Awaited(plan, AdvanceFind), Awaited(plan, AdvanceSave))
      && p.w == w.(attempts := p.w.attempts) && |p.w.attempts| == |w.attempts|
      && p.w.attempts[id].failureReason == w.attempts[id].failureReason
  {
  }

  /** A credentials call that gets to its `try` records exactly the error that the `try` threw, when the find
      and the save of `fail` take effect, and throws that same error; if the `try` goes through, or only the
      returned advance is rejected, the reason is what it was. */
  lemma CredentialsFailureIsRecorded(w: World, id: nat, plan: Plan<Point>)
    requires AtCredentials(w, id) && Begins(w, id, plan)
    ensures CredentialsLeft(w, CreateCredentials(w, id, plan), id,
                            CredentialsTry(w, w.attempts[id].mobileNumber, plan), plan)
  {
    var started := SetAttempt(w, id, w.attempts[id].(currentStep := CREDENTIALS_SET));
    if w.attempts[id].currentStep == CREDENTIALS_SET {
      assert started == w;
    }
    StartedCredentials(started, id, plan);
  }

  // ---- register-device

  ghost function DeviceTry(plan: Plan<Point>): Exit {
    Then(Awaited(plan, CreateDevice), Then(Awaited(plan, FindAgain), Awaited(plan, SaveId)))
  }

  /** The same of a device call that gets to its `try`; it touches no credential and no user. */
  lemma DeviceFailureIsRecorded(w: World, id: nat, deviceId: string, plan: Plan<Point>)
    requires AtDeviceStep(w, id) && At(plan, FindAttempt).Works?
    ensures var p, tried := RegisterDevice(w, id, deviceId, plan), DeviceTry(plan);
      && id < |p.w.attempts| && p.w.credentials == w.credentials && p.w.users == w.users
      && p.w.attempts[id].failureReason ==
           (if tried.Threw? && Notes(plan) then Some(tried.error) else w.attempts[id].failureReason)
      && match tried
         case Go => p.exit == Then(Awaited(plan, AdvanceFind), Awaited(plan, AdvanceSave))
         case Crashed => p.exit == Crashed
         case Threw(error) =>
           p.exit == Then(FailureHandled(plan), Threw(error)) || (p.exit == Crashed && UndoCrashes(plan))
  {
    var user := w.attempts[id].keycloakUserId.value;
    var tried := Link(w, id, user, deviceId, plan);
    LinkIsLeft(w, id, user, deviceId, plan);
    LinkStep(w, id, user, deviceId, plan);
    CaughtIsHandled(tried, id, DEVICE_REGISTERED, plan);
    var caught := Caught(tried, id, DEVICE_REGISTERED, plan);
    assert caught.w.credentials == tried.w.credentials;
    assert caught.w.users == tried.w.users;
  }

  lemma LinkIsLeft(w: World, id: nat, user: nat, deviceId: string, plan: Plan<Point>)
    requires AtDeviceStep(w, id)
    ensures var p := Link(w, id, user, deviceId, plan);
      && p.exit == DeviceTry(plan) && p.w.credentials == w.credentials && p.w.users == w.users
      && Live(p.w, id) && p.w.attempts[id].failureReason == w.attempts[id].failureReason
  {
  }

  // ---- calls at another step

  /** How a call that reads no attempt at its step is left. */
  ghost function TurnedAway(w: World, id: nat, plan: Plan<Point>): Exit {
    Then(Awaited(plan, FindAttempt), Threw(if id >= |w.attempts| || w.attempts[id].deleted then AttemptNotFound
                                           else WrongStep))
  }

  /** Each step runs at its own step alone: called for a missing attempt or at any other step, it changes
      nothing, no passcode either. */
  lemma OtherStepsAreTurnedAway(
      w: World, id: nat, challenge: nat, codeHash: string, clock: Otp.Clock, config: Otp.Config, deviceId: string,
      plan: Plan<Point>)
    ensures !(Live(w, id) && w.attempts[id].currentStep == INIT) ==>
      VerifyOtp(w, id, challenge, codeHash, clock, config, plan) == Progress(w, TurnedAway(w, id, plan))
    ensures !AtCredentials(w, id) ==> CreateCredentials(w, id, plan) == Progress(w, TurnedAway(w, id, plan))
    ensures !(Live(w, id) && w.attempts[id].currentStep == KEYCLOAK_USER_CREATED) ==>
      RegisterDevice(w, id, deviceId, plan) == Progress(w, TurnedAway(w, id, plan))
    ensures
      Live(w, id) && w.attempts[id].currentStep == KEYCLOAK_USER_CREATED && w.attempts[id].keycloakUserId.None? ==>
      RegisterDevice(w, id, deviceId, plan) == Progress(w, Then(Awaited(plan, FindAttempt), Threw(NoKeycloakUser)))
    ensures !(Live(w, id) && w.attempts[id].currentStep == DEVICE_REGISTERED) ==>
      Complete(w, id, plan) == Progress(w, TurnedAway(w, id, plan))
  {
  }

  // ---- the other steps

  /** The attempt before and after an advance that was or was not saved. */
  ghost predicate Advanced(w: World, v: World, id: nat, to: Step, saved: bool) {
    && id < |w.attempts| && Only(w, v, id)
    && var a := w.attempts[id];
       v.attempts[id] == Attempt(a.mobileNumber, if saved then to else a.currentStep, a.failureReason,
                                 a.keycloakUserId, a.deviceProfileId, a.deleted)
  }

  ghost predicate AdvanceSaved(plan: Plan<Point>) {
    At(plan, AdvanceFind) == Works && TakesEffect(At(plan, AdvanceSave))
  }

  function AdvanceExit(plan: Plan<Point>): Exit {
    Then(Awaited(plan, AdvanceFind), Awaited(plan, AdvanceSave))
  }

  /** A new attempt is at INIT with nothing recorded; completing one that has its device only advances it; and
      it is resumed exactly while it exists. */
  lemma OuterSteps(w: World, mobileNumber: string, save: Mode, id: nat, plan: Plan<Point>)
    ensures CreateAttempt(w, mobileNumber, save) == Progress(
      w.(attempts := w.attempts
           + if TakesEffect(save) then [Attempt(mobileNumber, INIT, None, None, None, false)] else []),
      Leaves(save, Unavailable))
    ensures Live(w, id) && w.attempts[id].currentStep == DEVICE_REGISTERED ==>
      var p := Complete(w, id, plan);
      && p.w == w.(attempts := p.w.attempts)
      && Advanced(w, p.w, id, COMPLETED, At(plan, FindAttempt) == Works && AdvanceSaved(plan))
      && p.exit == Then(Awaited(plan, FindAttempt), AdvanceExit(plan))
    ensures Resume(w, id).Ok? <==> id < |w.attempts| && !w.attempts[id].deleted
    ensures Resume(w, id).Err? ==> Resume(w, id).error == AttemptNotFound
  {
  }

  /** The passcode step of an attempt at INIT: a refused challenge changes nothing and is the error; a wrong
      code is saved and then the error; the right one is deleted, and only then the attempt advances. */
  lemma VerifyStepIsDecided(
      w: World, id: nat, challenge: nat, codeHash: string, clock: Otp.Clock, config: Otp.Config, plan: Plan<Point>)
    requires Live(w, id) && w.attempts[id].currentStep == INIT
    ensures var p := VerifyOtp(w, id, challenge, codeHash, clock, config, plan);
      var reply := Otp.VerifyReply(w.challenges, challenge, codeHash, clock);
      var after := Otp.AfterVerify(w.challenges, challenge, codeHash, clock, config);
      var found := At(plan, FindAttempt) == Works && At(plan, OtpFind) == Works;
      && p.w == w.(attempts := p.w.attempts, challenges := p.w.challenges)
      && Advanced(w, p.w, id, OTP_VERIFIED, found && reply.Ok? && At(plan, OtpDelete) == Works && AdvanceSaved(plan))
      && p.w.challenges == (if found && TakesEffect(At(plan, if reply.Ok? then OtpDelete else OtpSave)) then after
                            else w.challenges)
      && p.exit == Then(Awaited(plan, FindAttempt), Then(Awaited(plan, OtpFind),
           match reply
           case Ok(_) => Then(Awaited(plan, OtpDelete), AdvanceExit(plan))
           case Err(error) =>
             Then(if error == Otp.InvalidOtp then Awaited(plan, OtpSave) else Go, Threw(OtpRefused(error)))))
  {
  }

  /** A credentials call that does not get to its `try` keeps the reason, and throws the refused start. */
  lemma UnbegunKeepsReason(w: World, id: nat, plan: Plan<Point>)
    requires AtCredentials(w, id) && !Begins(w, id, plan)
    ensures var p := CreateCredentials(w, id, plan);
      && id < |p.w.attempts| && p.w.attempts[id].failureReason == w.attempts[id].failureReason
      && p.w == w.(attempts := p.w.attempts)
      && p.exit == Then(Awaited(plan, FindAttempt), Then(Awaited(plan, StartFind), Awaited(plan, StartSave)))
  {
  }

  // ---- every run

  /** The event is a call for the attempt whose `try` threw the reason, and whose `fail` noted it. */
  ghost predicate ThrownBy(w: World, e: Event, id: nat, reason: SagaError) {
    match e
    case CredentialsStep(eid, plan) =>
      && eid == id && AtCredentials(w, id) && Begins(w, id, plan) && Notes(plan)
      && CredentialsTry(w, w.attempts[id].mobileNumber, plan) == Threw(reason)
    case DeviceStep(eid, _, plan) =>
      && eid == id && AtDeviceStep(w, id) && At(plan, FindAttempt).Works? && Notes(plan)
      && DeviceTry(plan) == Threw(reason)
    case _ => false
  }

  /** A credentials or device call for the attempt that gets to its `try`. */
  ghost predicate Tries(w: World, e: Event, id: nat) {
    match e
    case CredentialsStep(eid, plan) => eid == id && AtCredentials(w, id) && Begins(w, id, plan)
    case DeviceStep(eid, _, plan) => eid == id && AtDeviceStep(w, id) && At(plan, FindAttempt).Works?
    case _ => false
  }

  lemma CredentialsOfAnother(w: World, eid: nat, plan: Plan<Point>, id: nat)
    requires id < |w.attempts| && !Tries(w, CredentialsStep(eid, plan), id)
    ensures var v := CreateCredentials(w, eid, plan).w;
      id < |v.attempts| && v.attempts[id].failureReason == w.attempts[id].failureReason
  {
    CredentialsStepOnly(w, eid, plan);
    if eid == id && AtCredentials(w, id) {
      UnbegunKeepsReason(w, id, plan);
    }
  }

  lemma QuietStepKeepsReason(w: World, e: Event, id: nat, config: Otp.Config)
    requires Safe(w) && id < |w.attempts| && !Tries(w, e, id)
    ensures var v := Next(w, e, config);
      id < |v.attempts| && v.attempts[id].failureReason == w.attempts[id].failureReason
  {
    match e
    case CredentialsStep(eid, plan) => CredentialsOfAnother(w, eid, plan, id);
    case VerifyStep(eid, challenge, codeHash, clock, plan) =>
      VerifyOnly(w, eid, challenge, codeHash, clock, config, plan);
    case DeviceStep(eid, deviceId, plan) =>
      if LinksDevice(w, e) {
        DeviceStepSafe(w, eid, deviceId, plan);
      } else {
        IdleDeviceStep(w, eid, deviceId, plan);
      }
    case CompleteStep(eid, plan) => CompleteOnly(w, eid, plan);
    case _ =>
  }

  lemma ReasonIsThrown(w: World, e: Event, id: nat, config: Otp.Config)
    requires Safe(w) && id < |w.attempts|
    ensures var v := Next(w, e, config);
      && id < |v.attempts|
      && (v.attempts[id].failureReason != w.attempts[id].failureReason ==>
            v.attempts[id].failureReason.Some? && ThrownBy(w, e, id, v.attempts[id].failureReason.value))
  {
    if Tries(w, e, id) {
      match e
      case CredentialsStep(_, plan) => CredentialsFailureIsRecorded(w, id, plan);
      case DeviceStep(_, deviceId, plan) => DeviceFailureIsRecorded(w, id, deviceId, plan);
    } else {
      QuietStepKeepsReason(w, e, id, config);
    }
  }

  /** After any serial run, with any failures, a recorded reason is the very error that the `try` of one of
      the attempt's calls threw. */
  lemma {:induction false} EveryReasonWasThrown(events: seq<Event>, config: Otp.Config, id: nat)
    requires id < |Run(events, config).attempts| && Run(events, config).attempts[id].failureReason.Some?
    ensures exists k: nat | k < |events| ::
      ThrownBy(Run(events[..k], config), events[k], id, Run(events, config).attempts[id].failureReason.value)
  {
    var last := |events| - 1;
    var front := events[..last];
    var before, after := Run(front, config), Run(events, config);
    SagaIsSafe(front, config);
    if id < |before.attempts| {
      ReasonIsThrown(before, events[last], id, config);
      if before.attempts[id].failureReason == after.attempts[id].failureReason {
        EveryReasonWasThrown(front, config, id);
        var k: nat :| k < |front|
          && ThrownBy(Run(front[..k], config), front[k], id, before.attempts[id].failureReason.value);
        assert front[..k] == events[..k];
      } else {
        assert front == events[..last];
      }
    } else {
      StepSafe(before, events[last], config);
      NewHasNoReason(before, events[last], id, config);
    }
  }

  /** A new attempt has no reason yet. */
  lemma NewHasNoReason(w: World, e: Event, id: nat, config: Otp.Config)
    requires Safe(w) && |w.attempts| <= id < |Next(w, e, config).attempts|
    ensures Next(w, e, config).attempts[id].failureReason.None?
  {
    match e
    case CredentialsStep(eid, plan) => CredentialsStepOnly(w, eid, plan);
    case VerifyStep(eid, challenge, codeHash, clock, plan) =>
      VerifyOnly(w, eid, challenge, codeHash, clock, config, plan);
    case DeviceStep(eid, deviceId, plan) =>
      if LinksDevice(w, e) {
        DeviceStepSafe(w, eid, deviceId, plan);
      } else {
        IdleDeviceStep(w, eid, deviceId, plan);
      }
    case CompleteStep(eid, plan) => CompleteOnly(w, eid, plan);
    case _ =>
  }
}
