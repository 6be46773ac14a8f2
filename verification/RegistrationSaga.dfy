/** The customer registration saga (auth/registration) over the attempt, challenge, device
    and credential tables and the Keycloak user directory. Rows are identified by their position. */
module RegistrationSaga {
  import opened Outcomes
  import opened Faults
  import Otp = OtpService

  datatype Step = INIT | OTP_VERIFIED | CREDENTIALS_SET | KEYCLOAK_USER_CREATED | DEVICE_REGISTERED | COMPLETED

  const STEP_ORDER: seq<Step> :=
    [INIT, OTP_VERIFIED, CREDENTIALS_SET, KEYCLOAK_USER_CREATED, DEVICE_REGISTERED, COMPLETED]

  function Index(step: Step): (i: nat)
    ensures i < |STEP_ORDER| && STEP_ORDER[i] == step
  {
    match step
    case INIT => 0
    case OTP_VERIFIED => 1
    case CREDENTIALS_SET => 2
    case KEYCLOAK_USER_CREATED => 3
    case DEVICE_REGISTERED => 4
    case COMPLETED => 5
  }

  datatype SagaError =
    | AttemptNotFound
    | WrongStep
    | NoKeycloakUser
    | OtpRefused(otp: Otp.OtpError)
    | UsernameTaken
    | Unavailable

  datatype Attempt = Attempt(
    mobileNumber: string,
    currentStep: Step,
    failureReason: Option<SagaError>,
    keycloakUserId: Option<nat>,
    deviceProfileId: Option<nat>,
    deleted: bool)

  datatype KeycloakUser = KeycloakUser(username: string, enabled: bool, roles: set<string>)

  datatype Device = Device(userId: nat, deviceId: string, deleted: bool)

  datatype World = World(
    attempts: seq<Attempt>,
    challenges: seq<Otp.Challenge>,
    users: seq<KeycloakUser>,
    devices: seq<Device>,
    credentials: set<nat>)

  datatype Point =
    | FindAttempt
    | OtpFind | OtpSave | OtpDelete
    | StartFind | StartSave
    | CreateUser | SetPassword | AssignRole
    | CreateDevice
    | FindAgain | SaveId
    | AdvanceFind | AdvanceSave
    | FailFind | FailSave
    | RollbackFind | UndoFind | UndoDelete

  type Exit = Control<SagaError>

  /** An operation's tables and how it was left. */
  datatype Progress = Progress(w: World, exit: Exit)

  predicate Live(w: World, id: nat) {
    id < |w.attempts| && !w.attempts[id].deleted
  }

  /** An awaited write. */
  function Write(w: World, mode: Mode, after: World): Progress {
    Progress(if TakesEffect(mode) then after else w, Leaves(mode, Unavailable))
  }

  function SetAttempt(w: World, id: nat, attempt: Attempt): World
    requires id < |w.attempts|
  {
    w.(attempts := w.attempts[id := attempt])
  }

  /** `findOne` of an attempt: nothing changes. */
  function FindExit(w: World, id: nat, mode: Mode): Exit {
    if !mode.Works? then Leaves(mode, Unavailable)
    else if !Live(w, id) then Threw(AttemptNotFound)
    else Go
  }

  // ---- orchestrator

  function Advance(w: World, id: nat, to: Step, find: Mode, save: Mode): Progress {
    var found := FindExit(w, id, find);
    if !found.Go? then Progress(w, found)
    else if Index(to) != Index(w.attempts[id].currentStep) + 1 then Progress(w, Threw(WrongStep))
    else Write(w, save, SetAttempt(w, id, w.attempts[id].(currentStep := to)))
  }

  datatype NextAction = VerifyOtpNext | CreateCredentialsNext | RegisterDeviceNext | CompleteNext | LoginNext

  function NextActionOf(step: Step): NextAction {
    match step
    case INIT => VerifyOtpNext
    case OTP_VERIFIED => CreateCredentialsNext
    case CREDENTIALS_SET => CreateCredentialsNext
    case KEYCLOAK_USER_CREATED => RegisterDeviceNext
    case DEVICE_REGISTERED => CompleteNext
    case COMPLETED => LoginNext
  }

  function Resume(w: World, id: nat): Result<NextAction, SagaError> {
    if Live(w, id) then Ok(NextActionOf(w.attempts[id].currentStep)) else Err(AttemptNotFound)
  }

  // ---- compensation

  /** An undo under `safely`: only a crash gets through. */
  function Safely(w: World, found: bool, find: Mode, delete: Mode, after: World): Progress {
    if find.Crashes? then Progress(w, Crashed)
    else if !find.Works? || !found then Progress(w, Go)
    else Progress(if TakesEffect(delete) then after else w, if delete.Crashes? then Crashed else Go)
  }

  predicate LiveDevice(w: World, device: nat) {
    device < |w.devices| && !w.devices[device].deleted
  }

  function DropDevice(w: World, device: nat): World {
    if LiveDevice(w, device) then w.(devices := w.devices[device := w.devices[device].(deleted := true)]) else w
  }

  function DisableUser(w: World, user: nat): World {
    if user < |w.users| then w.(users := w.users[user := w.users[user].(enabled := false)]) else w
  }

  function Rollback(w: World, id: nat, atStep: Step, plan: Plan<Point>): Progress {
    var find := At(plan, RollbackFind);
    if !find.Works? then Progress(w, Leaves(find, Unavailable))
    else if !Live(w, id) then Progress(w, Go)
    else
      var attempt := w.attempts[id];
      var undoFind, undo := At(plan, UndoFind), At(plan, UndoDelete);
      if atStep == DEVICE_REGISTERED && attempt.deviceProfileId.Some? then
        var device := attempt.deviceProfileId.value;
        Safely(w, LiveDevice(w, device), undoFind, undo, DropDevice(w, device))
      else if atStep == KEYCLOAK_USER_CREATED && attempt.keycloakUserId.Some? then
        Safely(w, true, undoFind, undo, DisableUser(w, attempt.keycloakUserId.value))
      else if atStep == CREDENTIALS_SET && attempt.keycloakUserId.Some? then
        var user := attempt.keycloakUserId.value;
        Safely(w, user in w.credentials, undoFind, undo, w.(credentials := w.credentials - {user}))
      else Progress(w, Go)
  }

  /** Records the reason, then compensates. */
  function Fail(w: World, id: nat, atStep: Step, reason: SagaError, plan: Plan<Point>): Progress {
    var find := At(plan, FailFind);
    if !find.Works? then Progress(w, Leaves(find, Unavailable))
    else if !Live(w, id) then Rollback(w, id, atStep, plan)
    else
      var saved := Write(w, At(plan, FailSave), SetAttempt(w, id, w.attempts[id].(failureReason := Some(reason))));
      if !saved.exit.Go? then saved else Rollback(saved.w, id, atStep, plan)
  }

  /** The `catch` of a step: compensate, then throw again. */
  function Caught(tried: Progress, id: nat, atStep: Step, plan: Plan<Point>): Progress {
    if !tried.exit.Threw? then tried
    else
      var failed := Fail(tried.w, id, atStep, tried.exit.error, plan);
      if failed.exit.Go? then Progress(failed.w, tried.exit) else failed
  }

  // ---- the steps

  function CreateAttempt(w: World, mobileNumber: string, save: Mode): Progress {
    Write(w, save, w.(attempts := w.attempts + [Attempt(mobileNumber, INIT, None, None, None, false)]))
  }

  /** `otpService.verify` as an awaited part of the saga. */
  function VerifyCode(
      w: World, challenge: nat, codeHash: string, clock: Otp.Clock, config: Otp.Config, plan: Plan<Point>)
    : Progress
  {
    var find := At(plan, OtpFind);
    if !find.Works? then Progress(w, Leaves(find, Unavailable))
    else
      var after := w.(challenges := Otp.AfterVerify(w.challenges, challenge, codeHash, clock, config));
      match Otp.VerifyReply(w.challenges, challenge, codeHash, clock)
      case Ok(_) => Write(w, At(plan, OtpDelete), after)
      case Err(error) =>
        if error != Otp.InvalidOtp then Progress(w, Threw(OtpRefused(error)))
        else
          var saved := Write(w, At(plan, OtpSave), after);
          if saved.exit.Go? then Progress(saved.w, Threw(OtpRefused(error))) else saved
  }

  function VerifyOtp(
      w: World, id: nat, challenge: nat, codeHash: string, clock: Otp.Clock, config: Otp.Config, plan: Plan<Point>)
    : Progress
  {
    var found := FindExit(w, id, At(plan, FindAttempt));
    if !found.Go? then Progress(w, found)
    else if w.attempts[id].currentStep != INIT then Progress(w, Threw(WrongStep))
    else
      var verified := VerifyCode(w, challenge, codeHash, clock, config, plan);
      if !verified.exit.Go? then verified
      else Advance(verified.w, id, OTP_VERIFIED, At(plan, AdvanceFind), At(plan, AdvanceSave))
  }

  predicate UsernameFree(w: World, username: string) {
    forall i | 0 <= i < |w.users| :: w.users[i].username != username
  }

  function AddUser(w: World, username: string): World {
    w.(users := w.users + [KeycloakUser(username, true, {})])
  }

  /** Keycloak refuses a taken username; otherwise the user exists from the first of two requests on. */
  function CreateKeycloakUser(w: World, username: string, plan: Plan<Point>): Progress {
    if At(plan, CreateUser).Works? && !UsernameFree(w, username) then Progress(w, Threw(UsernameTaken))
    else if !UsernameFree(w, username) then Progress(w, Leaves(At(plan, CreateUser), Unavailable))
    else
      var created := Write(w, At(plan, CreateUser), AddUser(w, username));
      if created.exit.Go? then Progress(created.w, Leaves(At(plan, SetPassword), Unavailable)) else created
  }

  function GrantRole(w: World, user: nat, role: string): World
    requires user < |w.users|
  {
    w.(users := w.users[user := w.users[user].(roles := w.users[user].roles + {role})])
  }

  /** Read the attempt again and record an id on it. */
  function Record(w: World, id: nat, user: Option<nat>, device: Option<nat>, plan: Plan<Point>): Progress {
    var found := FindExit(w, id, At(plan, FindAgain));
    if !found.Go? then Progress(w, found)
    else
      var attempt := w.attempts[id];
      var updated :=
        if device.Some? then attempt.(deviceProfileId := device) else attempt.(keycloakUserId := user);
      Write(w, At(plan, SaveId), SetAttempt(w, id, updated))
  }

  /** What the `try` of create-credentials awaits. */
  function Provision(w: World, id: nat, mobileNumber: string, plan: Plan<Point>): Progress {
    var created := CreateKeycloakUser(w, mobileNumber, plan);
    if !created.exit.Go? then created
    else
      var user := |w.users|;
      var granted := Write(created.w, At(plan, AssignRole), GrantRole(created.w, user, "RETAIL_CUSTOMER"));
      if !granted.exit.Go? then granted
      else Record(granted.w, id, Some(user), None, plan)
  }

  /** The advance a step returns. The `try` does not await it, so its rejection is not caught: the caller
      sees it, and nothing is recorded or compensated. */
  function Returned(caught: Progress, id: nat, to: Step, plan: Plan<Point>): Progress {
    if !caught.exit.Go? then caught
    else Advance(caught.w, id, to, At(plan, AdvanceFind), At(plan, AdvanceSave))
  }

  function CreateCredentials(w: World, id: nat, plan: Plan<Point>): Progress {
    var found := FindExit(w, id, At(plan, FindAttempt));
    if !found.Go? then Progress(w, found)
    else
      var attempt := w.attempts[id];
      if attempt.currentStep != OTP_VERIFIED && attempt.currentStep != CREDENTIALS_SET then
        Progress(w, Threw(WrongStep))
      else
        var started :=
          if attempt.currentStep == OTP_VERIFIED then
            Advance(w, id, CREDENTIALS_SET, At(plan, StartFind), At(plan, StartSave))
          else Progress(w, Go);
        if !started.exit.Go? then started
        else
          var caught := Caught(Provision(started.w, id, attempt.mobileNumber, plan), id, CREDENTIALS_SET, plan);
          Returned(caught, id, KEYCLOAK_USER_CREATED, plan)
  }

  function AddDevice(w: World, user: nat, deviceId: string): World {
    w.(devices := w.devices + [Device(user, deviceId, false)])
  }

  /** What the `try` of register-device awaits. */
  function Link(w: World, id: nat, user: nat, deviceId: string, plan: Plan<Point>): Progress {
    var created := Write(w, At(plan, CreateDevice), AddDevice(w, user, deviceId));
    if !created.exit.Go? then created
    else Record(created.w, id, None, Some(|w.devices|), plan)
  }

  function RegisterDevice(w: World, id: nat, deviceId: string, plan: Plan<Point>): Progress {
    var found := FindExit(w, id, At(plan, FindAttempt));
    if !found.Go? then Progress(w, found)
    else if w.attempts[id].currentStep != KEYCLOAK_USER_CREATED then Progress(w, Threw(WrongStep))
    else if w.attempts[id].keycloakUserId.None? then Progress(w, Threw(NoKeycloakUser))
    else
      var linked := Link(w, id, w.attempts[id].keycloakUserId.value, deviceId, plan);
      Returned(Caught(linked, id, DEVICE_REGISTERED, plan), id, DEVICE_REGISTERED, plan)
  }

  function Complete(w: World, id: nat, plan: Plan<Point>): Progress {
    var found := FindExit(w, id, At(plan, FindAttempt));
    if !found.Go? then Progress(w, found)
    else if w.attempts[id].currentStep != DEVICE_REGISTERED then Progress(w, Threw(WrongStep))
    else Advance(w, id, COMPLETED, At(plan, AdvanceFind), At(plan, AdvanceSave))
  }
}
