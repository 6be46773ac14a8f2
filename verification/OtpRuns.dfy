/** Whole runs of the passcode service on a monotone clock: how many codes one challenge ever compares,
    and that it verifies at most one. */
module OtpRuns {
  import opened Outcomes
  import opened OtpService

  datatype Event =
    | NewCode(mobileNumber: string, otpHash: string, now: int)
    | TryCode(id: nat, codeHash: string, clock: Clock)
    | DeleteCode(id: nat, now: int)

  function Begins(e: Event): int {
    match e
    case NewCode(_, _, now) => now
    case TryCode(_, _, clock) => clock.atLock
    case DeleteCode(_, now) => now
  }

  function Ends(e: Event): int {
    match e
    case NewCode(_, _, now) => now
    case TryCode(_, _, clock) => clock.atFailure
    case DeleteCode(_, now) => now
  }

  /** Events one after the other on a clock that never runs backwards. */
  ghost predicate Timely(events: seq<Event>) {
    && (forall i | 0 <= i < |events| && events[i].TryCode? ::
          events[i].clock.atLock <= events[i].clock.atExpiry <= events[i].clock.atFailure)
    && (forall i | 0 < i < |events| :: Ends(events[i - 1]) <= Begins(events[i]))
  }

  function Step(table: seq<Challenge>, e: Event, config: Config): seq<Challenge> {
    match e
    case NewCode(mobile, hash, now) => table + [NewChallenge(mobile, hash, now, config)]
    case TryCode(id, codeHash, clock) => AfterVerify(table, id, codeHash, clock, config)
    case DeleteCode(id, _) => AfterDelete(table, id)
  }

  function Run(events: seq<Event>, config: Config): seq<Challenge> {
    if events == [] then [] else Step(Run(events[..|events| - 1], config), events[|events| - 1], config)
  }

  /** The event compares a code with challenge `id`. */
  predicate Compares(table: seq<Challenge>, e: Event, id: nat) {
    e.TryCode? && e.id == id && Refusal(table, id, e.clock).None?
  }

  predicate Verifies(table: seq<Challenge>, e: Event, id: nat) {
    Compares(table, e, id) && e.codeHash == table[id].otpHash
  }

  function Compared(events: seq<Event>, id: nat, config: Config): nat {
    if events == [] then 0
    else
      var front := events[..|events| - 1];
      Compared(front, id, config) + if Compares(Run(front, config), events[|events| - 1], id) then 1 else 0
  }

  function Verified(events: seq<Event>, id: nat, config: Config): nat {
    if events == [] then 0
    else
      var front := events[..|events| - 1];
      Verified(front, id, config) + if Verifies(Run(front, config), events[|events| - 1], id) then 1 else 0
  }

  // ---- the bound

  /** Wrong codes until the lock first closes: at least one, whatever the setting. */
  function FreeTries(config: Config): nat {
    if config.maxAttempts < 1 then 1 else config.maxAttempts
  }

  /** The least time from a failure that locks to the next code that is compared. */
  function Gap(config: Config): int {
    config.lockMinutes * 60_000 + 1
  }

  /** A lock takes effect, or no code is ever compared. */
  predicate IsCapped(config: Config) {
    config.lockMinutes >= 0 || config.ttlSeconds < 0
  }

  function Bound(config: Config): int
    requires IsCapped(config)
  {
    if config.ttlSeconds < 0 then 0 else FreeTries(config) + config.ttlSeconds * 1000 / Gap(config)
  }

  /** Rounds of one gap that fit between two times, 0 when they are the wrong way round. */
  function Rounds(from: int, to: int, gap: int): int
    requires gap > 0
  {
    if to < from then 0 else (to - from) / gap
  }

  /** How many more codes a challenge can compare when the clock shows `now`. */
  function Budget(challenge: Challenge, now: int, config: Config): int
    requires Gap(config) > 0
  {
    var end, gap := challenge.expiresAt, Gap(config);
    if challenge.deleted then 0
    else if challenge.lockedUntil.None? then
      if end < now then 0 else FreeTries(config) - challenge.attemptCount + Rounds(now, end, gap)
    else
      var open := if now <= challenge.lockedUntil.value then challenge.lockedUntil.value + 1 else now;
      if end < open then 0 else 1 + Rounds(open, end, gap)
  }

  /** A lock is set exactly from the FreeTries-th failure on. */
  ghost predicate Counted(challenge: Challenge, config: Config) {
    challenge.lockedUntil.None? <==> challenge.attemptCount < FreeTries(config)
  }

  lemma RoundsShrink(from: int, later: int, to: int, gap: int)
    requires gap > 0 && from <= later
    ensures 0 <= Rounds(later, to, gap) <= Rounds(from, to, gap)
  {
    if later <= to {
      DivMonotone(to - later, to - from, gap);
    }
  }

  lemma MulOrder(a: int, b: int, d: int)
    requires d > 0
    ensures a <= b ==> a * d <= b * d
  {
    if a <= b {
      assert (b - a) * d >= 0;
    }
  }

  lemma QuotientAtLeast(x: int, d: int, q: int)
    requires d > 0 && q * d <= x
    ensures q <= x / d
  {
    var p := x / d;
    assert x < (p + 1) * d by {
      assert x == d * p + x % d;
    }
    MulOrder(p + 1, q, d);
  }

  lemma QuotientFits(x: int, d: int)
    requires d > 0
    ensures x / d * d <= x
  {
    assert x == d * (x / d) + x % d;
  }

  lemma DivMonotone(x: int, y: int, d: int)
    requires 0 <= x <= y && d > 0
    ensures 0 <= x / d <= y / d
  {
    QuotientFits(x, d);
    QuotientAtLeast(y, d, x / d);
    QuotientAtLeast(x, d, 0);
  }

  lemma RoundsStep(from: int, to: int, gap: int)
    requires gap > 0 && from + gap <= to
    ensures Rounds(from, to, gap) == 1 + Rounds(from + gap, to, gap)
  {
    var x := to - from;
    QuotientFits(x, gap);
    QuotientFits(x - gap, gap);
    var p, q := (x - gap) / gap, x / gap;
    assert (p + 1) * gap == p * gap + gap && (q - 1) * gap == q * gap - gap;
    QuotientAtLeast(x, gap, p + 1);
    QuotientAtLeast(x - gap, gap, q - 1);
  }

  lemma BudgetShrinks(challenge: Challenge, now: int, later: int, config: Config)
    requires config.lockMinutes >= 0 && Counted(challenge, config) && now <= later
    ensures 0 <= Budget(challenge, later, config) <= Budget(challenge, now, config)
  {
    var end, gap := challenge.expiresAt, Gap(config);
    RoundsShrink(now, later, end, gap);
    if challenge.lockedUntil.Some? {
      var open := if now <= challenge.lockedUntil.value then challenge.lockedUntil.value + 1 else now;
      var open' := if later <= challenge.lockedUntil.value then challenge.lockedUntil.value + 1 else later;
      RoundsShrink(open, open', end, gap);
    }
  }

  /** A comparison costs one unit of the budget. */
  lemma ComparisonCosts(table: seq<Challenge>, e: Event, now: int, config: Config)
    requires config.lockMinutes >= 0 && e.TryCode? && Compares(table, e, e.id)
    requires Counted(table[e.id], config)
    requires now <= e.clock.atLock <= e.clock.atExpiry <= e.clock.atFailure
    ensures var after := Step(table, e, config)[e.id];
      && Counted(after, config)
      && Budget(after, e.clock.atFailure, config) + 1 <= Budget(table[e.id], now, config)
  {
    var before := table[e.id];
    var after := Step(table, e, config)[e.id];
    var end, gap, c := before.expiresAt, Gap(config), e.clock.atFailure;
    BudgetShrinks(before, now, e.clock.atLock, config);
    RoundsShrink(e.clock.atLock, c, end, gap);
    if !after.deleted && after.lockedUntil.Some? {
      assert after.lockedUntil.value + 1 == c + gap;
      if c + gap <= end {
        RoundsStep(c, end, gap);
      }
    }
  }

  function LastTime(events: seq<Event>): int
    requires events != []
  {
    Ends(events[|events| - 1])
  }

  lemma {:induction false} BudgetCovers(events: seq<Event>, id: nat, config: Config)
    requires config.lockMinutes >= 0 && config.ttlSeconds >= 0 && Timely(events) && events != []
    ensures var table := Run(events, config);
      if id < |table| then
        && Counted(table[id], config)
        && Compared(events, id, config) + Budget(table[id], LastTime(events), config) <= Bound(config)
      else Compared(events, id, config) == 0
  {
    var front, e := events[..|events| - 1], events[|events| - 1];
    if front == [] {
      assert Run(front, config) == [] && Compared(front, id, config) == 0;
    } else {
      TimelyFront(events);
      BudgetCovers(front, id, config);
      if id < |Run(front, config)| {
        StepCovers(Run(front, config), e, id, LastTime(front), config);
      }
    }
  }

  lemma TimelyFront(events: seq<Event>)
    requires Timely(events) && |events| > 1
    ensures var front := events[..|events| - 1]; Timely(front) && LastTime(front) <= Begins(events[|events| - 1])
  {
    var front := events[..|events| - 1];
    assert forall i | 0 <= i < |front| :: front[i] == events[i];
  }

  lemma StepCovers(table: seq<Challenge>, e: Event, id: nat, now: int, config: Config)
    requires config.lockMinutes >= 0 && id < |table| && Counted(table[id], config) && now <= Begins(e)
    requires e.TryCode? ==> e.clock.atLock <= e.clock.atExpiry <= e.clock.atFailure
    ensures var after := Step(table, e, config);
      && id < |after| && Counted(after[id], config)
      && (if Compares(table, e, id) then 1 else 0)
         + Budget(after[id], Ends(e), config) <= Budget(table[id], now, config)
  {
    if Compares(table, e, id) {
      ComparisonCosts(table, e, now, config);
    } else {
      BudgetShrinks(table[id], now, Ends(e), config);
    }
  }

  /** A challenge made with a negative life time has expired before anything else happens. */
  lemma {:induction false} ExpiredAtOnce(events: seq<Event>, id: nat, config: Config)
    requires config.ttlSeconds < 0 && Timely(events)
    ensures Compared(events, id, config) == 0
    ensures id < |Run(events, config)| ==> events != [] && Run(events, config)[id].expiresAt < LastTime(events)
  {
    if |events| > 1 {
      TimelyFront(events);
      ExpiredAtOnce(events[..|events| - 1], id, config);
    } else if |events| == 1 {
      assert Run(events[..0], config) == [];
    }
  }

  /** However codes are tried, one challenge never compares more of them than the free tries plus one
      for each lock period that fits into its life time. */
  lemma ComparisonsAreBounded(events: seq<Event>, id: nat, config: Config)
    requires IsCapped(config) && Timely(events)
    ensures Compared(events, id, config) <= Bound(config)
  {
    if config.ttlSeconds < 0 {
      ExpiredAtOnce(events, id, config);
    } else {
      if events != [] {
        BudgetCovers(events, id, config);
        if id < |Run(events, config)| {
          BudgetShrinks(Run(events, config)[id], LastTime(events), LastTime(events), config);
        }
      }
      DivMonotone(0, config.ttlSeconds * 1000, Gap(config));
    }
  }

  lemma SmallQuotient(x: int, d: int)
    requires 0 <= x < d
    ensures x / d == 0
  {
    QuotientFits(x, d);
    QuotientAtLeast(x, d, 0);
    MulOrder(1, x / d, d);
  }

  /** With a life time no longer than the lock, the setting is the cap, one if it is set below one; the
      defaults are such. */
  lemma ShortLivedChallengesAreCapped(events: seq<Event>, id: nat, config: Config)
    requires Timely(events) && config.ttlSeconds * 1000 <= config.lockMinutes * 60_000
    ensures Compared(events, id, config) <= FreeTries(config)
    ensures DEFAULTS.ttlSeconds == 5 * 60 && DEFAULTS.lockMinutes == 15 && FreeTries(DEFAULTS) == 5
    ensures DEFAULTS.ttlSeconds * 1000 <= DEFAULTS.lockMinutes * 60_000
  {
    ComparisonsAreBounded(events, id, config);
    if config.ttlSeconds >= 0 {
      SmallQuotient(config.ttlSeconds * 1000, Gap(config));
    }
  }

  // ---- the bound is exact

  /** When the k-th wrong code is sent: the free ones at once, then one as each lock opens. */
  function WrongAt(k: nat, config: Config): int {
    if k < FreeTries(config) then 0 else (k - FreeTries(config) + 1) * Gap(config)
  }

  function WrongCodes(k: nat, config: Config): seq<Event> {
    if k == 0 then [NewCode("", "right", 0)]
    else
      var at := WrongAt(k - 1, config);
      WrongCodes(k - 1, config) + [TryCode(0, "wrong", Clock(at, at, at))]
  }

  lemma WrongAtGrows(k: nat, config: Config)
    requires config.lockMinutes >= 0
    ensures 0 <= WrongAt(k, config) <= WrongAt(k + 1, config)
    ensures k + 1 >= FreeTries(config) ==> WrongAt(k + 1, config) == WrongAt(k, config) + Gap(config)
  {
  }

  lemma WrongAtInTime(k: nat, config: Config)
    requires config.lockMinutes >= 0 && config.ttlSeconds >= 0 && k < Bound(config)
    ensures WrongAt(k, config) <= config.ttlSeconds * 1000
  {
    var free, gap, life := FreeTries(config), Gap(config), config.ttlSeconds * 1000;
    if k >= free {
      var n := k - free + 1;
      QuotientFits(life, gap);
      MulOrder(n, life / gap, gap);
    }
  }

  /** The challenge after k wrong codes. */
  function AfterWrong(k: nat, config: Config): Challenge {
    Challenge("", "right", k,
              if k >= FreeTries(config) then Some(WrongAt(k - 1, config) + Gap(config) - 1) else None,
              config.ttlSeconds * 1000, false)
  }

  lemma NoWrongCodes(config: Config)
    ensures var events := WrongCodes(0, config);
      && Timely(events) && LastTime(events) == 0 && Compared(events, 0, config) == 0
      && Run(events, config) == [AfterWrong(0, config)]
  {
    assert WrongCodes(0, config)[..0] == [];
  }

  lemma {:induction false} WrongCodesRun(k: nat, config: Config)
    requires config.lockMinutes >= 0 && config.ttlSeconds >= 0 && k <= Bound(config)
    ensures var events := WrongCodes(k, config);
      && Timely(events) && LastTime(events) == (if k == 0 then 0 else WrongAt(k - 1, config))
      && Compared(events, 0, config) == k
      && Run(events, config) == [AfterWrong(k, config)]
  {
    if k == 0 {
      NoWrongCodes(config);
    } else {
      WrongCodesRun(k - 1, config);
      OneWrongCodeMore(WrongCodes(k - 1, config), k - 1, config);
    }
  }

  lemma OneWrongCodeMore(front: seq<Event>, k: nat, config: Config)
    requires config.lockMinutes >= 0 && config.ttlSeconds >= 0 && k < Bound(config)
    requires Timely(front) && front != [] && LastTime(front) == (if k == 0 then 0 else WrongAt(k - 1, config))
    requires Compared(front, 0, config) == k && Run(front, config) == [AfterWrong(k, config)]
    ensures var at := WrongAt(k, config);
      var events := front + [TryCode(0, "wrong", Clock(at, at, at))];
      && Timely(events) && LastTime(events) == at
      && Compared(events, 0, config) == k + 1
      && Run(events, config) == [AfterWrong(k + 1, config)]
  {
    var at := WrongAt(k, config);
    var e := TryCode(0, "wrong", Clock(at, at, at));
    NextWrongCode(k, config);
    AppendTimely(front, e);
    AppendCompares(front, e, config);
  }

  lemma NextWrongCode(k: nat, config: Config)
    requires config.lockMinutes >= 0 && config.ttlSeconds >= 0 && k < Bound(config)
    ensures k >= 1 ==> WrongAt(k - 1, config) <= WrongAt(k, config)
    ensures 0 <= WrongAt(k, config)
    ensures var at := WrongAt(k, config);
      var e := TryCode(0, "wrong", Clock(at, at, at));
      && Compares([AfterWrong(k, config)], e, 0)
      && Step([AfterWrong(k, config)], e, config) == [AfterWrong(k + 1, config)]
  {
    WrongAtInTime(k, config);
    WrongAtGrows(k, config);
    if k >= 1 {
      WrongAtGrows(k - 1, config);
    }
    assert "wrong" != "right";
  }

  lemma AppendTimely(front: seq<Event>, e: Event)
    requires Timely(front) && front != [] && LastTime(front) <= Begins(e)
    requires e.TryCode? && e.clock.atLock == e.clock.atExpiry == e.clock.atFailure
    ensures Timely(front + [e]) && LastTime(front + [e]) == e.clock.atFailure
  {
  }

  lemma AppendCompares(front: seq<Event>, e: Event, config: Config)
    requires Compares(Run(front, config), e, 0)
    ensures Run(front + [e], config) == Step(Run(front, config), e, config)
    ensures Compared(front + [e], 0, config) == Compared(front, 0, config) + 1
  {
    assert (front + [e])[..|front|] == front;
  }

  /** The bound is attained: some timely run compares that many codes with one challenge. */
  lemma BoundIsAttained(config: Config)
    requires IsCapped(config)
    ensures exists events :: Timely(events) && Compared(events, 0, config) == Bound(config)
  {
    if config.ttlSeconds < 0 {
      assert Timely([]) && Compared([], 0, config) == 0;
    } else {
      DivMonotone(0, config.ttlSeconds * 1000, Gap(config));
      WrongCodesRun(Bound(config), config);
    }
  }

  /** The challenge after k wrong codes in the millisecond in which it was made. */
  function AfterCodesAtOnce(k: nat, config: Config): Challenge {
    Challenge("", "right", k, if k >= FreeTries(config) then Some(config.lockMinutes * 60_000) else None,
              config.ttlSeconds * 1000, false)
  }

  /** A lock that ends before it begins stops nothing. */
  lemma NextCodeAtOnce(k: nat, config: Config)
    requires config.lockMinutes < 0 && config.ttlSeconds >= 0
    ensures var e := TryCode(0, "wrong", Clock(0, 0, 0));
      && Compares([AfterCodesAtOnce(k, config)], e, 0)
      && Step([AfterCodesAtOnce(k, config)], e, config) == [AfterCodesAtOnce(k + 1, config)]
  {
    assert "wrong" != "right";
  }

  /** A timely run that ends at time 0, has compared k codes and left the challenge like that. */
  ghost predicate HasCompared(events: seq<Event>, k: nat, config: Config) {
    && events != [] && Timely(events) && LastTime(events) == 0
    && Compared(events, 0, config) == k && Run(events, config) == [AfterCodesAtOnce(k, config)]
  }

  lemma OneCodeAtOnceMore(front: seq<Event>, k: nat, config: Config) returns (events: seq<Event>)
    requires config.lockMinutes < 0 && config.ttlSeconds >= 0 && HasCompared(front, k, config)
    ensures HasCompared(events, k + 1, config)
  {
    var e := TryCode(0, "wrong", Clock(0, 0, 0));
    NextCodeAtOnce(k, config);
    AppendTimely(front, e);
    AppendCompares(front, e, config);
    events := front + [e];
  }

  lemma NoCodesAtOnce(config: Config) returns (events: seq<Event>)
    ensures HasCompared(events, 0, config)
  {
    events := [NewCode("", "right", 0)];
    assert events[..0] == [];
  }

  lemma {:induction false} CodesAtOnce(k: nat, config: Config) returns (events: seq<Event>)
    requires config.lockMinutes < 0 && config.ttlSeconds >= 0
    ensures HasCompared(events, k, config)
  {
    if k == 0 {
      events := NoCodesAtOnce(config);
    } else {
      var front := CodesAtOnce(k - 1, config);
      events := OneCodeAtOnceMore(front, k - 1, config);
    }
  }

  ghost predicate CapsAll(cap: nat, config: Config) {
    forall events, id :: Timely(events) ==> Compared(events, id, config) <= cap
  }

  /** There is a cap on the codes one challenge compares if and only if the lock is not negative or the life
      time is. */
  lemma CapExistsIff(config: Config)
    ensures (exists cap :: CapsAll(cap, config)) <==> IsCapped(config)
  {
    if IsCapped(config) {
      ComparisonsAreBounded([], 0, config);
      forall events, id | Timely(events) ensures Compared(events, id, config) <= Bound(config) {
        ComparisonsAreBounded(events, id, config);
      }
      assert CapsAll(Bound(config), config);
    } else {
      forall cap: nat ensures !CapsAll(cap, config) {
        var events := CodesAtOnce(cap + 1, config);
      }
    }
  }

  // ---- one-time use

  lemma {:induction false} VerifiedIsDeleted(events: seq<Event>, id: nat, config: Config)
    ensures Verified(events, id, config) <= 1
    ensures Verified(events, id, config) == 1 ==> id < |Run(events, config)| && Run(events, config)[id].deleted
  {
    if events != [] {
      VerifiedIsDeleted(events[..|events| - 1], id, config);
    }
  }

  // ---- what one call decides

  /** The challenge with one more failed attempt; from the configured number on it is locked anew. */
  ghost predicate CountsFailure(before: Challenge, after: Challenge, at: int, config: Config) {
    && after.attemptCount == before.attemptCount + 1 && !after.deleted
    && after.lockedUntil == (if after.attemptCount >= config.maxAttempts then Some(at + config.lockMinutes * 60_000)
                             else before.lockedUntil)
    && after.mobileNumber == before.mobileNumber && after.otpHash == before.otpHash
    && after.expiresAt == before.expiresAt
  }

  /** The reply to a code, and the table, on fields: a missing, a locked and an expired challenge are refused
      in this order without any change; a wrong code counts; the right one deletes the challenge and returns
      its number. */
  lemma VerifyIsDecided(table: seq<Challenge>, id: nat, codeHash: string, clock: Clock, config: Config)
    ensures var reply := VerifyReply(table, id, codeHash, clock);
      var after := AfterVerify(table, id, codeHash, clock, config);
      if id >= |table| || table[id].deleted then reply == Err(ChallengeNotFound) && after == table
      else
        var challenge := table[id];
        if challenge.lockedUntil.Some? && clock.atLock <= challenge.lockedUntil.value then
          reply == Err(Locked) && after == table
        else if challenge.expiresAt < clock.atExpiry then reply == Err(Expired) && after == table
        else
          && |after| == |table| && (forall i | 0 <= i < |table| && i != id :: after[i] == table[i])
          && if codeHash == challenge.otpHash then reply == Ok(challenge.mobileNumber) && after[id].deleted
             else reply == Err(InvalidOtp) && CountsFailure(challenge, after[id], clock.atFailure, config)
  {
  }

  /** Deleting and counting change nothing else of a challenge. */
  ghost predicate SameCode(a: Challenge, b: Challenge) {
    a.mobileNumber == b.mobileNumber && a.otpHash == b.otpHash && a.expiresAt == b.expiresAt
  }

  lemma StepKeepsCodes(table: seq<Challenge>, e: Event, config: Config)
    ensures var after := Step(table, e, config);
      && |table| <= |after|
      && (forall i | 0 <= i < |table| :: SameCode(table[i], after[i]))
      && (|after| > |table| ==> |after| == |table| + 1 && MadeBy(e, after[|table|], config))
  {
  }

  /** The challenge is for the number, the code and the life time of the event. */
  ghost predicate MadeBy(e: Event, challenge: Challenge, config: Config) {
    && e.NewCode? && challenge.mobileNumber == e.mobileNumber && challenge.otpHash == e.otpHash
    && challenge.expiresAt == e.now + config.ttlSeconds * 1000
  }

  lemma {:induction false} EveryChallengeWasMade(events: seq<Event>, id: nat, config: Config)
    requires id < |Run(events, config)|
    ensures exists k: nat | k < |events| ::
      |Run(events[..k], config)| == id && MadeBy(events[k], Run(events, config)[id], config)
  {
    var last := |events| - 1;
    var front := events[..last];
    StepKeepsCodes(Run(front, config), events[last], config);
    if id < |Run(front, config)| {
      EveryChallengeWasMade(front, id, config);
      var k: nat :| k < |front| && |Run(front[..k], config)| == id && MadeBy(front[k], Run(front, config)[id], config);
      assert front[..k] == events[..k];
      assert SameCode(Run(front, config)[id], Run(events, config)[id]);
    } else {
      assert front == events[..last];
    }
  }

  /** After any run, a code is accepted only if the event that made the challenge was for just that code, and
      not longer ago than its life time; the number returned is the one that event was for. */
  lemma AcceptedNumberIsTheOneRequested(events: seq<Event>, id: nat, codeHash: string, clock: Clock, config: Config)
    requires VerifyReply(Run(events, config), id, codeHash, clock).Ok?
    ensures exists k: nat | k < |events| ::
      && |Run(events[..k], config)| == id && events[k].NewCode? && events[k].otpHash == codeHash
      && clock.atExpiry <= events[k].now + config.ttlSeconds * 1000
      && VerifyReply(Run(events, config), id, codeHash, clock) == Ok(events[k].mobileNumber)
  {
    VerifyIsDecided(Run(events, config), id, codeHash, clock, config);
    EveryChallengeWasMade(events, id, config);
  }

  /** Deleting a challenge deletes just it, and afterwards, whatever happens, no code is accepted for it. */
  lemma {:induction false} DeletedIsNeverAccepted(
      table: seq<Challenge>, now: int, more: seq<Event>, id: nat, codeHash: string, clock: Clock, config: Config)
    requires id < |table|
    ensures var after := Step(table, DeleteCode(id, now), config);
      && |after| == |table| && after[id].deleted && forall i | 0 <= i < |table| && i != id :: after[i] == table[i]
    ensures var later := RunFrom(Step(table, DeleteCode(id, now), config), more, config);
      && id < |later| && later[id].deleted
      && VerifyReply(later, id, codeHash, clock) == Err(ChallengeNotFound)
  {
    if more != [] {
      DeletedIsNeverAccepted(table, now, more[..|more| - 1], id, codeHash, clock, config);
    }
  }

  function RunFrom(table: seq<Challenge>, events: seq<Event>, config: Config): seq<Challenge> {
    if events == [] then table
    else Step(RunFrom(table, events[..|events| - 1], config), events[|events| - 1], config)
  }
}
