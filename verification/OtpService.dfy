/** One-time passcodes (auth/otp/otp.service.ts, common/utils/date.util.ts): expiry, attempt counting,
    lockout and one-time use. Times are milliseconds; a code is known by its hash. */
module OtpService {
  import opened Outcomes

  datatype Config = Config(maxAttempts: int, lockMinutes: int, ttlSeconds: int)

  const DEFAULTS := Config(5, 15, 300)

  datatype Challenge = Challenge(
    mobileNumber: string,
    otpHash: string,
    attemptCount: nat,
    lockedUntil: Option<int>,
    expiresAt: int,
    deleted: bool)

  datatype OtpError = ChallengeNotFound | Locked | Expired | InvalidOtp

  /** The clock as one `verify` reads it: for the lock, for the expiry, and for a new lock. */
  datatype Clock = Clock(atLock: int, atExpiry: int, atFailure: int)

  function AddMinutes(time: int, minutes: int): int {
    time + minutes * 60_000
  }

  predicate IsExpired(time: int, now: int) {
    time < now
  }

  function NewChallenge(mobileNumber: string, otpHash: string, now: int, config: Config): Challenge {
    Challenge(mobileNumber, otpHash, 0, None, now + config.ttlSeconds * 1000, false)
  }

  predicate Live(table: seq<Challenge>, id: nat) {
    id < |table| && !table[id].deleted
  }

  /** Why the challenge is not even compared with a code. */
  function Refusal(table: seq<Challenge>, id: nat, clock: Clock): Option<OtpError> {
    if !Live(table, id) then Some(ChallengeNotFound)
    else if table[id].lockedUntil.Some? && !IsExpired(table[id].lockedUntil.value, clock.atLock) then Some(Locked)
    else if IsExpired(table[id].expiresAt, clock.atExpiry) then Some(Expired)
    else None
  }

  function Failed(challenge: Challenge, clock: Clock, config: Config): Challenge {
    var attempts := challenge.attemptCount + 1;
    challenge.(
      attemptCount := attempts,
      lockedUntil := if attempts >= config.maxAttempts then Some(AddMinutes(clock.atFailure, config.lockMinutes))
                     else challenge.lockedUntil)
  }

  function AfterVerify(table: seq<Challenge>, id: nat, codeHash: string, clock: Clock, config: Config): seq<Challenge> {
    if Refusal(table, id, clock).Some? then table
    else if codeHash != table[id].otpHash then table[id := Failed(table[id], clock, config)]
    else table[id := table[id].(deleted := true)]
  }

  function VerifyReply(table: seq<Challenge>, id: nat, codeHash: string, clock: Clock): Result<string, OtpError> {
    var refusal := Refusal(table, id, clock);
    if refusal.Some? then Err(refusal.value)
    else if codeHash != table[id].otpHash then Err(InvalidOtp)
    else Ok(table[id].mobileNumber)
  }

  function AfterDelete(table: seq<Challenge>, id: nat): seq<Challenge> {
    if Live(table, id) then table[id := table[id].(deleted := true)] else table
  }

  class Service {
    const config: Config
    var challenges: seq<Challenge>

    constructor (config: Config)
      ensures this.config == config && challenges == []
    {
      this.config := config;
      challenges := [];
    }

    method Create(mobileNumber: string, otpHash: string, now: int) returns (id: nat)
      modifies this
      ensures id == |old(challenges)|
      ensures challenges == old(challenges) + [NewChallenge(mobileNumber, otpHash, now, config)]
    {
      id := |challenges|;
      var expiresAt := now + config.ttlSeconds * 1000;
      challenges := challenges + [Challenge(mobileNumber, otpHash, 0, None, expiresAt, false)];
    }

    method Verify(challengeId: nat, codeHash: string, clock: Clock) returns (reply: Result<string, OtpError>)
      modifies this
      ensures challenges == AfterVerify(old(challenges), challengeId, codeHash, clock, config)
      ensures reply == VerifyReply(old(challenges), challengeId, codeHash, clock)
    {
      if challengeId >= |challenges| || challenges[challengeId].deleted {
        return Err(ChallengeNotFound);
      }
      var challenge := challenges[challengeId];
      if challenge.lockedUntil.Some? && !IsExpired(challenge.lockedUntil.value, clock.atLock) {
        return Err(Locked);
      }
      if IsExpired(challenge.expiresAt, clock.atExpiry) {
        return Err(Expired);
      }
      if codeHash != challenge.otpHash {
        challenge := challenge.(attemptCount := challenge.attemptCount + 1);
        if challenge.attemptCount >= config.maxAttempts {
          challenge := challenge.(lockedUntil := Some(AddMinutes(clock.atFailure, config.lockMinutes)));
        }
        challenges := challenges[challengeId := challenge];
        return Err(InvalidOtp);
      }
      challenges := challenges[challengeId := challenge.(deleted := true)];
      return Ok(challenge.mobileNumber);
    }

    method SoftDelete(id: nat) returns (reply: Result<nat, OtpError>)
      modifies this
      ensures challenges == AfterDelete(old(challenges), id)
      ensures reply == if Live(old(challenges), id) then Ok(id) else Err(ChallengeNotFound)
    {
      if id >= |challenges| || challenges[id].deleted {
        return Err(ChallengeNotFound);
      }
      challenges := challenges[id := challenges[id].(deleted := true)];
      return Ok(id);
    }
  }
}
