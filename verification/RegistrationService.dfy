/** The saga's services as they run: each await is one write to the tables or one read, and the plan of
    the call decides whether it works. */
module RegistrationService {
  import opened Outcomes
  import opened Faults
  import opened RegistrationSaga
  import Otp = OtpService

  class IdentityStore {
    var attempts: seq<Attempt>
    var challenges: seq<Otp.Challenge>
    var users: seq<KeycloakUser>
    var devices: seq<Device>
    var credentials: set<nat>

    constructor ()
      ensures Snapshot() == World([], [], [], [], {})
    {
      attempts, challenges, users, devices, credentials := [], [], [], [], {};
    }

    function Snapshot(): World
      reads this
    {
      World(attempts, challenges, users, devices, credentials)
    }

    method FindAttempt(id: nat, mode: Mode) returns (exit: Exit)
      ensures exit == FindExit(Snapshot(), id, mode)
    {
      if mode != Works {
        return Leaves(mode, Unavailable);
      }
      if id >= |attempts| || attempts[id].deleted {
        return Threw(AttemptNotFound);
      }
      return Go;
    }

    method SaveAttempt(id: nat, attempt: Attempt, mode: Mode) returns (exit: Exit)
      requires id < |attempts|
      modifies this`attempts
      ensures Progress(Snapshot(), exit) == Write(old(Snapshot()), mode, SetAttempt(old(Snapshot()), id, attempt))
    {
      if TakesEffect(mode) {
        attempts := attempts[id := attempt];
      }
      return Leaves(mode, Unavailable);
    }
  }

  class Compensation {
    const store: IdentityStore

    constructor (store: IdentityStore)
      ensures this.store == store
    {
      this.store := store;
    }

    method Rollback(id: nat, atStep: Step, plan: Plan<Point>) returns (exit: Exit)
      modifies store
      ensures Progress(store.Snapshot(), exit) == RegistrationSaga.Rollback(old(store.Snapshot()), id, atStep, plan)
    {
      var find := At(plan, RollbackFind);
      if find != Works {
        return Leaves(find, Unavailable);
      }
      if id >= |store.attempts| || store.attempts[id].deleted {
        return Go;
      }
      var attempt := store.attempts[id];
      var undoFind, undo := At(plan, UndoFind), At(plan, UndoDelete);
      match atStep {
        case DEVICE_REGISTERED =>
          if attempt.deviceProfileId.Some? {
            exit := RevokeDevice(attempt.deviceProfileId.value, undoFind, undo);
            return;
          }
        case KEYCLOAK_USER_CREATED =>
          if attempt.keycloakUserId.Some? {
            exit := DisableKeycloakUser(attempt.keycloakUserId.value, undoFind, undo);
            return;
          }
        case CREDENTIALS_SET =>
          if attempt.keycloakUserId.Some? {
            exit := ClearCredential(attempt.keycloakUserId.value, undoFind, undo);
            return;
          }
        case _ =>
      }
      return Go;
    }

    method RevokeDevice(device: nat, find: Mode, delete: Mode) returns (exit: Exit)
      modifies store
      ensures var w := old(store.Snapshot());
        Progress(store.Snapshot(), exit) == Safely(w, LiveDevice(w, device), find, delete, DropDevice(w, device))
    {
      if find != Works {
        return if find == Crashes then Crashed else Go;
      }
      if device >= |store.devices| || store.devices[device].deleted {
        return Go;
      }
      if TakesEffect(delete) {
        store.devices := store.devices[device := store.devices[device].(deleted := true)];
      }
      return if delete == Crashes then Crashed else Go;
    }

    method DisableKeycloakUser(user: nat, find: Mode, update: Mode) returns (exit: Exit)
      modifies store
      ensures var w := old(store.Snapshot());
        Progress(store.Snapshot(), exit) == Safely(w, true, find, update, DisableUser(w, user))
    {
      if find != Works {
        return if find == Crashes then Crashed else Go;
      }
      if TakesEffect(update) && user < |store.users| {
        store.users := store.users[user := store.users[user].(enabled := false)];
      }
      return if update == Crashes then Crashed else Go;
    }

    method ClearCredential(user: nat, find: Mode, delete: Mode) returns (exit: Exit)
      modifies store
      ensures var w := old(store.Snapshot());
        Progress(store.Snapshot(), exit) ==
          Safely(w, user in w.credentials, find, delete, w.(credentials := w.credentials - {user}))
    {
      if find != Works {
        return if find == Crashes then Crashed else Go;
      }
      if user !in store.credentials {
        return Go;
      }
      if TakesEffect(delete) {
        store.credentials := store.credentials - {user};
      }
      return if delete == Crashes then Crashed else Go;
    }
  }

  class Orchestrator {
    const store: IdentityStore
    const compensation: Compensation

    constructor (store: IdentityStore)
      ensures this.store == store && compensation.store == store
    {
      this.store := store;
      compensation := new Compensation(store);
    }

    method Resume(id: nat) returns (reply: Result<NextAction, SagaError>)
      ensures reply == RegistrationSaga.Resume(store.Snapshot(), id)
    {
      if id >= |store.attempts| || store.attempts[id].deleted {
        return Err(AttemptNotFound);
      }
      return Ok(NextActionOf(store.attempts[id].currentStep));
    }

    method Advance(id: nat, to: Step, find: Mode, save: Mode) returns (exit: Exit)
      modifies store
      ensures Progress(store.Snapshot(), exit) == RegistrationSaga.Advance(old(store.Snapshot()), id, to, find, save)
    {
      exit := store.FindAttempt(id, find);
      if exit != Go {
        return;
      }
      var attempt := store.attempts[id];
      var fromIndex, toIndex := Index(attempt.currentStep), Index(to);
      if toIndex != fromIndex + 1 {
        return Threw(WrongStep);
      }
      attempt := attempt.(currentStep := to);
      exit := store.SaveAttempt(id, attempt, save);
    }

    method Fail(id: nat, atStep: Step, reason: SagaError, plan: Plan<Point>) returns (exit: Exit)
      requires compensation.store == store
      modifies store
      ensures Progress(store.Snapshot(), exit) == RegistrationSaga.Fail(old(store.Snapshot()), id, atStep, reason, plan)
    {
      var find := At(plan, FailFind);
      if find != Works {
        return Leaves(find, Unavailable);
      }
      if id < |store.attempts| && !store.attempts[id].deleted {
        var attempt := store.attempts[id].(failureReason := Some(reason));
        exit := store.SaveAttempt(id, attempt, At(plan, FailSave));
        assert Progress(store.Snapshot(), exit) ==
          Write(old(store.Snapshot()), At(plan, FailSave), SetAttempt(old(store.Snapshot()), id, attempt));
        if exit != Go {
          return;
        }
      }
      exit := compensation.Rollback(id, atStep, plan);
    }
  }

  class Service {
    const store: IdentityStore
    const orchestrator: Orchestrator

    constructor (store: IdentityStore)
      ensures this.store == store && Wired()
    {
      this.store := store;
      orchestrator := new Orchestrator(store);
    }

    ghost predicate Wired() {
      orchestrator.store == store && orchestrator.compensation.store == store
    }

    method Create(mobileNumber: string, save: Mode) returns (exit: Exit)
      modifies store
      ensures Progress(store.Snapshot(), exit) == CreateAttempt(old(store.Snapshot()), mobileNumber, save)
    {
      if TakesEffect(save) {
        store.attempts := store.attempts + [Attempt(mobileNumber, INIT, None, None, None, false)];
      }
      return Leaves(save, Unavailable);
    }

    method VerifyCode(challenge: nat, codeHash: string, clock: Otp.Clock, config: Otp.Config, plan: Plan<Point>)
        returns (exit: Exit)
      modifies store
      ensures Progress(store.Snapshot(), exit) ==
        RegistrationSaga.VerifyCode(old(store.Snapshot()), challenge, codeHash, clock, config, plan)
    {
      var find := At(plan, OtpFind);
      if find != Works {
        return Leaves(find, Unavailable);
      }
      var refusal := Otp.Refusal(store.challenges, challenge, clock);
      if refusal.Some? {
        return Threw(OtpRefused(refusal.value));
      }
      if codeHash != store.challenges[challenge].otpHash {
        var save := At(plan, OtpSave);
        if TakesEffect(save) {
          store.challenges := store.challenges[challenge := Otp.Failed(store.challenges[challenge], clock, config)];
        }
        if save != Works {
          return Leaves(save, Unavailable);
        }
        return Threw(OtpRefused(Otp.InvalidOtp));
      }
      var delete := At(plan, OtpDelete);
      if TakesEffect(delete) {
        store.challenges := store.challenges[challenge := store.challenges[challenge].(deleted := true)];
      }
      return Leaves(delete, Unavailable);
    }

    method VerifyOtp(
        id: nat, challenge: nat, codeHash: string, clock: Otp.Clock, config: Otp.Config, plan: Plan<Point>)
        returns (exit: Exit)
      requires Wired()
      modifies store
      ensures Progress(store.Snapshot(), exit) ==
        RegistrationSaga.VerifyOtp(old(store.Snapshot()), id, challenge, codeHash, clock, config, plan)
    {
      exit := store.FindAttempt(id, At(plan, FindAttempt));
      if exit != Go {
        return;
      }
      if store.attempts[id].currentStep != INIT {
        return Threw(WrongStep);
      }
      exit := VerifyCode(challenge, codeHash, clock, config, plan);
      if exit != Go {
        return;
      }
      exit := orchestrator.Advance(id, OTP_VERIFIED, At(plan, AdvanceFind), At(plan, AdvanceSave));
    }

    method CreateUser(username: string, plan: Plan<Point>) returns (exit: Exit)
      modifies store
      ensures Progress(store.Snapshot(), exit) == CreateKeycloakUser(old(store.Snapshot()), username, plan)
    {
      var create := At(plan, Point.CreateUser);
      var free := UsernameFree(store.Snapshot(), username);
      if create == Works && !free {
        return Threw(UsernameTaken);
      }
      if TakesEffect(create) && free {
        store.users := store.users + [KeycloakUser(username, true, {})];
      }
      if create != Works {
        return Leaves(create, Unavailable);
      }
      return Leaves(At(plan, SetPassword), Unavailable);
    }

    method Record(id: nat, user: Option<nat>, device: Option<nat>, plan: Plan<Point>) returns (exit: Exit)
      modifies store
      ensures Progress(store.Snapshot(), exit) ==
        RegistrationSaga.Record(old(store.Snapshot()), id, user, device, plan)
    {
      exit := store.FindAttempt(id, At(plan, FindAgain));
      if exit != Go {
        return;
      }
      var updated := store.attempts[id];
      if device.Some? {
        updated := updated.(deviceProfileId := device);
      } else {
        updated := updated.(keycloakUserId := user);
      }
      exit := store.SaveAttempt(id, updated, At(plan, SaveId));
    }

    method Provision(id: nat, mobileNumber: string, plan: Plan<Point>) returns (exit: Exit)
      modifies store
      ensures Progress(store.Snapshot(), exit) ==
        RegistrationSaga.Provision(old(store.Snapshot()), id, mobileNumber, plan)
    {
      var user := |store.users|;
      exit := CreateUser(mobileNumber, plan);
      if exit != Go {
        return;
      }
      var assign := At(plan, AssignRole);
      if TakesEffect(assign) {
        store.users := store.users[user := store.users[user].(roles := store.users[user].roles + {"RETAIL_CUSTOMER"})];
      }
      if assign != Works {
        return Leaves(assign, Unavailable);
      }
      exit := Record(id, Some(user), None, plan);
    }

    method CreateCredentials(id: nat, plan: Plan<Point>) returns (exit: Exit)
      requires Wired()
      modifies store
      ensures Progress(store.Snapshot(), exit) == RegistrationSaga.CreateCredentials(old(store.Snapshot()), id, plan)
    {
      exit := store.FindAttempt(id, At(plan, FindAttempt));
      if exit != Go {
        return;
      }
      var attempt := store.attempts[id];
      if attempt.currentStep != OTP_VERIFIED && attempt.currentStep != CREDENTIALS_SET {
        return Threw(WrongStep);
      }
      if attempt.currentStep == OTP_VERIFIED {
        exit := orchestrator.Advance(id, CREDENTIALS_SET, At(plan, StartFind), At(plan, StartSave));
        if exit != Go {
          return;
        }
      }
      exit := Provision(id, attempt.mobileNumber, plan);
      if exit.Threw? {
        var failed := orchestrator.Fail(id, CREDENTIALS_SET, exit.error, plan);
        return if failed != Go then failed else exit;
      }
      if exit != Go {
        return;
      }
      exit := orchestrator.Advance(id, KEYCLOAK_USER_CREATED, At(plan, AdvanceFind), At(plan, AdvanceSave));
    }

    method Link(id: nat, user: nat, deviceId: string, plan: Plan<Point>) returns (exit: Exit)
      modifies store
      ensures Progress(store.Snapshot(), exit) ==
        RegistrationSaga.Link(old(store.Snapshot()), id, user, deviceId, plan)
    {
      var create := At(plan, CreateDevice);
      var device := |store.devices|;
      if TakesEffect(create) {
        store.devices := store.devices + [Device(user, deviceId, false)];
      }
      if create != Works {
        return Leaves(create, Unavailable);
      }
      exit := Record(id, None, Some(device), plan);
    }

    method RegisterDevice(id: nat, deviceId: string, plan: Plan<Point>) returns (exit: Exit)
      requires Wired()
      modifies store
      ensures Progress(store.Snapshot(), exit) ==
        RegistrationSaga.RegisterDevice(old(store.Snapshot()), id, deviceId, plan)
    {
      exit := store.FindAttempt(id, At(plan, FindAttempt));
      if exit != Go {
        return;
      }
      var attempt := store.attempts[id];
      if attempt.currentStep != KEYCLOAK_USER_CREATED {
        return Threw(WrongStep);
      }
      if attempt.keycloakUserId.None? {
        return Threw(NoKeycloakUser);
      }
      exit := Link(id, attempt.keycloakUserId.value, deviceId, plan);
      if exit.Threw? {
        var failed := orchestrator.Fail(id, DEVICE_REGISTERED, exit.error, plan);
        return if failed != Go then failed else exit;
      }
      if exit != Go {
        return;
      }
      exit := orchestrator.Advance(id, DEVICE_REGISTERED, At(plan, AdvanceFind), At(plan, AdvanceSave));
    }

    method Complete(id: nat, plan: Plan<Point>) returns (exit: Exit)
      requires Wired()
      modifies store
      ensures Progress(store.Snapshot(), exit) == RegistrationSaga.Complete(old(store.Snapshot()), id, plan)
    {
      exit := store.FindAttempt(id, At(plan, FindAttempt));
      if exit != Go {
        return;
      }
      if store.attempts[id].currentStep != DEVICE_REGISTERED {
        return Threw(WrongStep);
      }
      exit := orchestrator.Advance(id, COMPLETED, At(plan, AdvanceFind), At(plan, AdvanceSave));
    }
  }
}
