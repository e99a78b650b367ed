/**
 Progressive lockout of a user's three secrets, kept in the database and in Redis: the login passcode,
 the transaction PIN, and the Universal Payment PIN (UPP), which shares the passcode's Redis key.
 */
module Lockout {
  import opened Common

  const MINUTE_MS := 60000

  datatype Schedule = Schedule(failureThreshold: int, durationMs: int)

  const PASSCODE_LOCKOUT_SCHEDULE: seq<Schedule> := [
    Schedule(5, 15 * MINUTE_MS), Schedule(10, 60 * MINUTE_MS), Schedule(15, 24 * 60 * MINUTE_MS)]

  const PASSCODE_HARD_LOCK_AFTER_LOCKOUTS := 3
  const PIN_HARD_LOCK_FAILURES := 3
  const PIN_HARD_LOCK_AFTER_LOCKOUTS := 2
  const PIN_LOCK_DURATION_MS := 30 * MINUTE_MS

  datatype Secret = Login | Upp | Pin

  /** The factor under which a secret's lockout is applied and its Redis key is named. */
  datatype Factor = PasscodeFactor | PinFactor

  function FactorOf(x: Secret): Factor {
    if x == Pin then PinFactor else PasscodeFactor
  }

  /** The lockout columns of user_auth for one secret. */
  datatype Auth = Auth(failCount: int, lockedUntil: Option<int>, hardLocked: bool, lockoutCount: int)

  const CLEAR: Auth := Auth(0, None, false, 0)

  /**
   The Redis until key: its value, and when the key expires. `writer` and `orphaned` are history: the
   secret whose failure wrote the key, and whether that secret's columns have been reset since.
   */
  datatype UntilKey = UntilKey(until: int, expiresAt: int, writer: Secret, orphaned: bool)

  datatype State = State(login: Auth, upp: Auth, pin: Auth, passcodeKey: Option<UntilKey>, pinKey: Option<UntilKey>)

  const START: State := State(CLEAR, CLEAR, CLEAR, None, None)

  function Columns(s: State, x: Secret): Auth {
    match x
    case Login => s.login
    case Upp => s.upp
    case Pin => s.pin
  }

  function WithColumns(s: State, x: Secret, a: Auth): State {
    match x
    case Login => s.(login := a)
    case Upp => s.(upp := a)
    case Pin => s.(pin := a)
  }

  function KeyOf(s: State, f: Factor): Option<UntilKey> {
    if f == PinFactor then s.pinKey else s.passcodeKey
  }

  function WithKey(s: State, f: Factor, k: Option<UntilKey>): State {
    if f == PinFactor then s.(pinKey := k) else s.(passcodeKey := k)
  }

  /** redis.get, and the comparison with the clock: an expired key is gone. */
  predicate KeyLocks(k: Option<UntilKey>, now: int) {
    k.Some? && now < k.value.expiresAt && now < k.value.until
  }

  predicate DatabaseLocks(a: Auth, now: int) {
    a.hardLocked || (a.lockedUntil.Some? && a.lockedUntil.value > now)
  }

  /** assertNotLocked: Redis first, then the database. */
  predicate IsLocked(s: State, x: Secret, now: int) {
    KeyLocks(KeyOf(s, FactorOf(x)), now) || DatabaseLocks(Columns(s, x), now)
  }

  // ----- recordFailedAttempt

  /** [...schedule].reverse().find(s => fails >= s.failureThreshold), over the first n entries. */
  function FindSchedule(n: nat, fails: int): Option<Schedule>
    requires n <= |PASSCODE_LOCKOUT_SCHEDULE|
  {
    if n == 0 then None
    else if fails >= PASSCODE_LOCKOUT_SCHEDULE[n - 1].failureThreshold then Some(PASSCODE_LOCKOUT_SCHEDULE[n - 1])
    else FindSchedule(n - 1, fails)
  }

  predicate IsThreshold(fails: int) {
    exists i :: 0 <= i < |PASSCODE_LOCKOUT_SCHEDULE| && PASSCODE_LOCKOUT_SCHEDULE[i].failureThreshold == fails
  }

  /** What a failure leads to: no lock, a timed lock, or a hard lock. */
  datatype Penalty = NoLock | Timed(durationMs: int) | Hard

  function PasscodePenalty(fails: int, lockouts: int): Penalty {
    var schedule := FindSchedule(|PASSCODE_LOCKOUT_SCHEDULE|, fails);
    if schedule.None? || !IsThreshold(fails) then NoLock
    else if lockouts + 1 >= PASSCODE_HARD_LOCK_AFTER_LOCKOUTS then Hard
    else Timed(schedule.value.durationMs)
  }

  function PinPenalty(fails: int, lockouts: int): Penalty {
    if fails < PIN_HARD_LOCK_FAILURES then NoLock
    else if lockouts + 1 >= PIN_HARD_LOCK_AFTER_LOCKOUTS then Hard
    else Timed(PIN_LOCK_DURATION_MS)
  }

  function PenaltyFor(x: Secret, a: Auth): Penalty {
    if x == Pin then PinPenalty(a.failCount + 1, a.lockoutCount) else PasscodePenalty(a.failCount + 1, a.lockoutCount)
  }

  /** The columns after a failure: the next counters, and the lock the penalty sets. */
  function Penalised(a: Auth, p: Penalty, now: int): Auth {
    match p
    case NoLock => Auth(a.failCount + 1, None, false, a.lockoutCount)
    case Timed(ms) => Auth(a.failCount + 1, Some(now + ms), false, a.lockoutCount + 1)
    case Hard => Auth(a.failCount + 1, None, true, a.lockoutCount + 1)
  }

  /** The Redis key after a failure: a timed lock writes it, a hard lock deletes it. */
  function PenalisedKey(k: Option<UntilKey>, x: Secret, p: Penalty, now: int): Option<UntilKey> {
    match p
    case NoLock => k
    case Timed(ms) => Some(UntilKey(now + ms, now + ms, x, false))
    case Hard => None
  }

  /** recordFailedAttempt and the update its callers make with the result. */
  function RecordFailure(s: State, x: Secret, now: int): State {
    var p := PenaltyFor(x, Columns(s, x));
    WithKey(WithColumns(s, x, Penalised(Columns(s, x), p, now)), FactorOf(x),
            PenalisedKey(KeyOf(s, FactorOf(x)), x, p, now))
  }

  /** The update after a success: the lockout count stays. */
  function Cleared(a: Auth): Auth {
    a.(failCount := 0, lockedUntil := None, hardLocked := false)
  }

  /** clearLockout and the callers' update. */
  function ClearLockout(s: State, x: Secret): State {
    WithKey(WithColumns(s, x, Cleared(Columns(s, x))), FactorOf(x), None)
  }

  /** The columns start over; the key stays, and from now on belongs to nobody. */
  function ResetColumns(s: State, x: Secret): State {
    var k := KeyOf(s, FactorOf(x));
    var orphan := if k.Some? && k.value.writer == x then Some(k.value.(orphaned := true)) else k;
    WithKey(WithColumns(s, x, CLEAR), FactorOf(x), orphan)
  }

  // ----- the places that compare a secret

  datatype Event =
    | Submit(secret: Secret, now: int, correct: bool)  // login, unlock, verifyPin and its likes, verifyUpp
    | ChangePasscode(now: int, correct: bool)          // success clears the columns only
    | RevokeId(now: int, correct: bool)                // compares the passcode; checks and records nothing
    | PayBill(now: int, correct: bool)                 // checks the PIN's columns; records nothing
    | LoseKey(factor: Factor)                          // Redis drops the key
    | Reset(secret: Secret, now: int)                  // resetPasscode, completePinReset, completeUppReset

  /** The secret an event compares, or resets. */
  function SecretOf(e: Event): Option<Secret> {
    match e
    case Submit(x, _, _) => Some(x)
    case ChangePasscode(_, _) => Some(Login)
    case RevokeId(_, _) => Some(Login)
    case PayBill(_, _) => Some(Pin)
    case LoseKey(_) => None
    case Reset(x, _) => Some(x)
  }

  predicate Compares(e: Event, x: Secret) {
    !e.LoseKey? && !e.Reset? && SecretOf(e) == Some(x)
  }

  datatype Outcome = Locked | Wrong | Right | NotAsked

  function Handle(s: State, e: Event): (State, Outcome) {
    match e
    case Submit(x, now, correct) =>
      if IsLocked(s, x, now) then (s, Locked)
      else if correct then (ClearLockout(s, x), Right)
      else (RecordFailure(s, x, now), Wrong)
    case ChangePasscode(now, correct) =>
      if IsLocked(s, Login, now) then (s, Locked)
      else if correct then (s.(login := Cleared(s.login)), Right)
      else (RecordFailure(s, Login, now), Wrong)
    case RevokeId(_, correct) => (s, if correct then Right else Wrong)
    case PayBill(now, correct) =>
      if DatabaseLocks(s.pin, now) then (s, Locked) else (s, if correct then Right else Wrong)
    case LoseKey(f) => (WithKey(s, f, None), NotAsked)
    case Reset(x, _) => (ResetColumns(s, x), NotAsked)
  }

  function Run(s: State, events: seq<Event>): State {
    if events == [] then s
    else Handle(Run(s, events[..|events| - 1]), events[|events| - 1]).0
  }

  /** The answer to event i of a run. */
  function OutcomeAt(s: State, events: seq<Event>, i: nat): Outcome
    requires i < |events|
  {
    Handle(Run(s, events[..i]), events[i]).1
  }

  // ----- counters and hard lock

  function HardLockLimit(x: Secret): int {
    if x == Pin then PIN_HARD_LOCK_AFTER_LOCKOUTS else PASSCODE_HARD_LOCK_AFTER_LOCKOUTS
  }

  /** How many recorded failures in a row a secret can have. */
  function StreakLimit(x: Secret): int {
    if x == Pin then 4 else 15
  }

  /** The counters tell the lock: hard exactly when the lockout count has reached its limit. */
  predicate CountersFit(a: Auth, x: Secret) {
    && 0 <= a.failCount <= StreakLimit(x)
    && 0 <= a.lockoutCount <= HardLockLimit(x)
    && (a.hardLocked <==> a.lockoutCount == HardLockLimit(x))
    && a.lockoutCount >= (if x == Pin then a.failCount - 2 else a.failCount / 5)
  }

  lemma ThresholdsAre(fails: int)
    ensures IsThreshold(fails) <==> fails in {5, 10, 15}
  {
    if fails in {5, 10, 15} {
      assert PASSCODE_LOCKOUT_SCHEDULE[fails / 5 - 1].failureThreshold == fails;
    }
  }

  lemma FailureKeepsCounters(a: Auth, x: Secret, now: int)
    requires CountersFit(a, x) && !a.hardLocked
    ensures CountersFit(Penalised(a, PenaltyFor(x, a), now), x)
  {
    ThresholdsAre(a.failCount + 1);
  }

  /** The other secrets' columns are out of an event's reach. */
  lemma EventKeepsCounters(s: State, e: Event, x: Secret)
    requires CountersFit(Columns(s, x), x)
    ensures CountersFit(Columns(Handle(s, e).0, x), x)
  {
    if (e.Submit? || e.ChangePasscode?) && SecretOf(e) == Some(x) && !IsLocked(s, x, e.now) {
      FailureKeepsCounters(Columns(s, x), x, e.now);
    }
  }

  /**
   In every run, resets included, a secret's lockout count covers its recorded failures since the last
   success and its hard lock holds exactly when that count has reached its limit.
   */
  lemma {:induction false} CountersAlwaysFit(events: seq<Event>, x: Secret)
    ensures CountersFit(Columns(Run(START, events), x), x)
  {
    if events != [] {
      CountersAlwaysFit(events[..|events| - 1], x);
      EventKeepsCounters(Run(START, events[..|events| - 1]), events[|events| - 1], x);
    }
  }

  /** The comparisons that record what they find: all but those of revokeUniversalId and the bill payments. */
  predicate Records(e: Event, x: Secret) {
    (e.Submit? || e.ChangePasscode?) && Compares(e, x)
  }

  /** How many recorded comparisons of a secret in a row have just failed. */
  function RecordedStreak(events: seq<Event>, x: Secret): nat {
    if events == [] then 0
    else
      var before, e := events[..|events| - 1], events[|events| - 1];
      var outcome := Handle(Run(START, before), e).1;
      if Records(e, x) && outcome == Wrong then RecordedStreak(before, x) + 1
      else if (Records(e, x) && outcome == Right) || (e.Reset? && e.secret == x) then 0
      else RecordedStreak(before, x)
  }

  lemma {:induction false} FailCountIsStreak(events: seq<Event>, x: Secret)
    ensures Columns(Run(START, events), x).failCount == RecordedStreak(events, x)
  {
    if events != [] {
      FailCountIsStreak(events[..|events| - 1], x);
    }
  }

  /**
   Of the comparisons that record their result, a streak of 15 wrong passcodes or UPPs, or of 4 wrong
   PINs, ends in a hard lock, and no streak is longer.
   */
  lemma StreakHardLocks(events: seq<Event>, x: Secret)
    ensures RecordedStreak(events, x) <= StreakLimit(x)
    ensures RecordedStreak(events, x) == StreakLimit(x) ==> Columns(Run(START, events), x).hardLocked
  {
    CountersAlwaysFit(events, x);
    FailCountIsStreak(events, x);
  }

  /** The 24-hour lock is never applied: a failure sets a lock of 15 minutes, an hour or half an hour, a hard one, or none. */
  lemma DayLockIsUnreachable(events: seq<Event>, x: Secret)
    requires !Columns(Run(START, events), x).hardLocked
    ensures PenaltyFor(x, Columns(Run(START, events), x)) in
              if x == Pin then {NoLock, Hard, Timed(30 * MINUTE_MS)}
              else {NoLock, Hard, Timed(15 * MINUTE_MS), Timed(60 * MINUTE_MS)}
  {
    CountersAlwaysFit(events, x);
    ThresholdsAre(Columns(Run(START, events), x).failCount + 1);
  }

  // ----- the lockout count is the number of locks set

  /** A recorded comparison that failed and left the secret locked in the database. */
  predicate SetsLock(s: State, e: Event, x: Secret) {
    var (after, outcome) := Handle(s, e);
    Records(e, x) && outcome == Wrong && DatabaseLocks(Columns(after, x), e.now)
  }

  /** How many locks, timed or hard, a secret's failures have set since its last reset. Successes end none of them. */
  function LocksSet(events: seq<Event>, x: Secret): nat {
    if events == [] then 0
    else
      var before, e := events[..|events| - 1], events[|events| - 1];
      if e.Reset? && e.secret == x then 0
      else LocksSet(before, x) + if SetsLock(Run(START, before), e, x) then 1 else 0
  }

  lemma EventCountsLocks(s: State, e: Event, x: Secret)
    requires CountersFit(Columns(s, x), x)
    ensures Columns(Handle(s, e).0, x).lockoutCount
            == if e.Reset? && e.secret == x then 0
               else Columns(s, x).lockoutCount + if SetsLock(s, e, x) then 1 else 0
  {
    if Records(e, x) {
      ThresholdsAre(Columns(s, x).failCount + 1);
    }
  }

  /** In every run, with any successes in between, a secret's lockout count is the number of locks set since its reset. */
  lemma {:induction false} LockoutCountIsLocksSet(events: seq<Event>, x: Secret)
    ensures Columns(Run(START, events), x).lockoutCount == LocksSet(events, x)
  {
    if events != [] {
      var before, e := events[..|events| - 1], events[|events| - 1];
      LockoutCountIsLocksSet(before, x);
      CountersAlwaysFit(before, x);
      EventCountsLocks(Run(START, before), e, x);
    }
  }

  /** The failures in a row at which a secret locks. */
  predicate LocksAt(x: Secret, streak: nat) {
    if x == Pin then streak >= 3 else streak in {5, 10, 15}
  }

  /** How long a timed lock lasts: half an hour for the PIN, else by the streak. */
  function LockMinutes(x: Secret, streak: nat): int {
    if x == Pin then 30 else if streak < 10 then 15 else 60
  }

  /** The columns and the key after a failure that is the streak's, with so many locks set before. */
  predicate FailureShows(a: Auth, k: Option<UntilKey>, was: Option<UntilKey>, x: Secret, now: int, streak: nat, locks: nat) {
    var end := now + LockMinutes(x, streak) * 60 * 1000;
    && a.failCount == streak
    && if !LocksAt(x, streak) then !a.hardLocked && a.lockedUntil == None && k == was
       else if locks + 1 >= (if x == Pin then 2 else 3) then a.hardLocked && a.lockedUntil == None && k == None
       else !a.hardLocked && a.lockedUntil == Some(end) && k == Some(UntilKey(end, end, x, false))
  }

  lemma PenaltyShows(s: State, x: Secret, now: int)
    requires CountersFit(Columns(s, x), x) && !Columns(s, x).hardLocked
    ensures var after, a := RecordFailure(s, x, now), Columns(s, x);
            FailureShows(Columns(after, x), KeyOf(after, FactorOf(x)), KeyOf(s, FactorOf(x)), x, now,
                         a.failCount + 1, a.lockoutCount)
  {
    ThresholdsAre(Columns(s, x).failCount + 1);
  }

  /**
   What a recorded failure does after any run. It locks exactly at the fifth, tenth or fifteenth failure in a
   row, or from the PIN's third on. The lock is hard exactly when it is the third since the last reset, or the
   PIN's second, however many successes lie between; else it is timed, and the factor's key shows its end.
   */
  lemma {:induction false} FailureLocksIff(events: seq<Event>, e: Event, x: Secret)
    requires Records(e, x) && Handle(Run(START, events), e).1 == Wrong
    ensures var s, after := Run(START, events), Handle(Run(START, events), e).0;
            FailureShows(Columns(after, x), KeyOf(after, FactorOf(x)), KeyOf(s, FactorOf(x)), x, e.now,
                         RecordedStreak(events, x) + 1, LocksSet(events, x))
  {
    CountersAlwaysFit(events, x);
    FailCountIsStreak(events, x);
    LockoutCountIsLocksSet(events, x);
    PenaltyShows(Run(START, events), x, e.now);
  }

  /** The lock that the place of a comparison looks at: both, the columns alone, or none. */
  predicate MeetsLock(s: State, e: Event, x: Secret)
    requires Compares(e, x)
  {
    match e
    case Submit(_, now, _) => KeyLocks(KeyOf(s, FactorOf(x)), now) || DatabaseLocks(Columns(s, x), now)
    case ChangePasscode(now, _) => KeyLocks(KeyOf(s, FactorOf(x)), now) || DatabaseLocks(Columns(s, x), now)
    case PayBill(now, _) => DatabaseLocks(Columns(s, x), now)
    case RevokeId(_, _) => false
  }

  /** A comparison is refused, and changes nothing, exactly when the place meets a lock; else it is as right as the secret. */
  lemma ComparedUnlessLocked(s: State, e: Event, x: Secret)
    requires Compares(e, x)
    ensures Handle(s, e).1 == if MeetsLock(s, e, x) then Locked else if e.correct then Right else Wrong
    ensures MeetsLock(s, e, x) ==> Handle(s, e).0 == s
  {
  }

  /**
   A recorded success starts the streak over and lifts a lock that has run out, and keeps the count of locks.
   Only a submission deletes the factor's key; a changed passcode leaves it. No other secret is touched.
   */
  lemma SuccessKeepsLockoutCount(s: State, e: Event, x: Secret)
    requires Records(e, x) && Handle(s, e).1 == Right
    ensures var after := Handle(s, e).0;
            && Columns(after, x) == Auth(0, None, false, Columns(s, x).lockoutCount)
            && KeyOf(after, FactorOf(x)) == (if e.Submit? then None else KeyOf(s, FactorOf(x)))
            && (forall y :: y != x ==> Columns(after, y) == Columns(s, y))
            && (forall f :: f != FactorOf(x) ==> KeyOf(after, f) == KeyOf(s, f))
  {
  }

  /** A reset starts everything over for its secret, the count of locks too, but leaves the factor's key as it is. */
  lemma ResetStartsOver(s: State, x: Secret, now: int)
    ensures var (after, outcome) := Handle(s, Reset(x, now));
            && outcome == NotAsked && Columns(after, x) == Auth(0, None, false, 0)
            && (forall y :: y != x ==> Columns(after, y) == Columns(s, y))
            && (forall f, at :: KeyLocks(KeyOf(after, f), at) <==> KeyLocks(KeyOf(s, f), at))
  {
  }

  /** A lost key takes its lock with it; the columns and the other factor's key stay. */
  lemma LostKeyIsGone(s: State, f: Factor)
    ensures var (after, outcome) := Handle(s, LoseKey(f));
            && outcome == NotAsked && KeyOf(after, f) == None
            && (forall y :: Columns(after, y) == Columns(s, y)) && (forall g :: g != f ==> KeyOf(after, g) == KeyOf(s, g))
  {
  }

  /** A wrong passcode at a revocation and a wrong PIN at a bill payment are forgotten, and so is a right one. */
  lemma UnrecordedChangesNothing(s: State, e: Event)
    requires e.RevokeId? || e.PayBill?
    ensures Handle(s, e).0 == s
  {
  }

  // ----- three rounds of failures and successes

  /** Five wrong passcodes, and once the lock is over a right one. */
  function Round(start: int): seq<Event> {
    FiveFrom(start) + [Submit(Login, start + 15 * MINUTE_MS, true)]
  }

  function FiveFrom(start: int): seq<Event> {
    seq(5, _ => Submit(Login, start, false))
  }

  /** The columns after so many failures of a round, with no lock running. */
  lemma {:induction false} FailuresOfRound(before: seq<Event>, start: int, lockouts: nat, n: nat)
    requires n <= 4 && lockouts <= 2
    requires Run(START, before).login == Auth(0, None, false, lockouts) && Run(START, before).passcodeKey == None
    ensures Run(START, before + FiveFrom(start)[..n]).login == Auth(n, None, false, lockouts)
    ensures Run(START, before + FiveFrom(start)[..n]).passcodeKey == None
  {
    if n > 0 {
      FailuresOfRound(before, start, lockouts, n - 1);
      var all := before + FiveFrom(start)[..n];
      assert all[..|all| - 1] == before + FiveFrom(start)[..n - 1];
      ThresholdsAre(n);
    } else {
      assert before + FiveFrom(start)[..0] == before;
    }
  }

  /** The fifth failure of a round: the first two rounds lock for 15 minutes, the third for good. */
  lemma FifthOfRound(before: seq<Event>, start: int, lockouts: nat)
    requires lockouts <= 2
    requires Run(START, before).login == Auth(0, None, false, lockouts) && Run(START, before).passcodeKey == None
    ensures Run(START, before + FiveFrom(start)).login
            == if lockouts == 2 then Auth(5, None, true, 3) else Auth(5, Some(start + 15 * MINUTE_MS), false, lockouts + 1)
    ensures lockouts < 2 ==>
              Run(START, before + FiveFrom(start)).passcodeKey
              == Some(UntilKey(start + 15 * MINUTE_MS, start + 15 * MINUTE_MS, Login, false))
  {
    FailuresOfRound(before, start, lockouts, 4);
    var all := before + FiveFrom(start);
    assert all[..|all| - 1] == before + FiveFrom(start)[..4];
    ThresholdsAre(5);
  }

  lemma RoundEnds(before: seq<Event>, start: int, lockouts: nat)
    requires lockouts < 2
    requires Run(START, before).login == Auth(0, None, false, lockouts) && Run(START, before).passcodeKey == None
    ensures Run(START, before + Round(start)).login == Auth(0, None, false, lockouts + 1)
    ensures Run(START, before + Round(start)).passcodeKey == None
  {
    FifthOfRound(before, start, lockouts);
    var all := before + Round(start);
    assert all[..|all| - 1] == before + FiveFrom(start);
  }

  /** Logging in between the failures does not save the passcode: the fifth failure of the third round locks it for good. */
  lemma ThirdRoundLocksHard()
    ensures Run(START, Round(0) + Round(20 * MINUTE_MS) + FiveFrom(40 * MINUTE_MS)).login == Auth(5, None, true, 3)
  {
    assert [] + Round(0) == Round(0);
    RoundEnds([], 0, 0);
    RoundEnds(Round(0), 20 * MINUTE_MS, 1);
    FifthOfRound(Round(0) + Round(20 * MINUTE_MS), 40 * MINUTE_MS, 2);
  }

  // ----- the comparisons that count for nothing

  /** n wrong passcodes at revokeUniversalId, or n wrong PINs at bill payments. */
  function Uncounted(x: Secret, n: nat, now: int): seq<Event>
    requires x != Upp
  {
    seq(n, _ => if x == Pin then PayBill(now, false) else RevokeId(now, false))
  }

  /** However many they are, every one is compared, none counts, and nothing locks. */
  lemma {:induction false} UncountedNeverLock(x: Secret, n: nat, now: int)
    requires x != Upp
    ensures Run(START, Uncounted(x, n, now)) == START
    ensures forall i :: 0 <= i < n ==> OutcomeAt(START, Uncounted(x, n, now), i) == Wrong
    ensures !IsLocked(Run(START, Uncounted(x, n, now)), x, now)
  {
    var all := Uncounted(x, n, now);
    if n > 0 {
      UncountedNeverLock(x, n - 1, now);
      assert all[..n - 1] == Uncounted(x, n - 1, now);
      forall i | 0 <= i < n ensures OutcomeAt(START, all, i) == Wrong {
        if i < n - 1 {
          assert all[..i] == Uncounted(x, n - 1, now)[..i];
          assert OutcomeAt(START, Uncounted(x, n - 1, now), i) == Wrong;
        }
      }
    }
  }

  // ----- a lock in the database

  /** Every moment of the run lies within the lock: before its end, or it is hard. */
  ghost predicate WithinLock(a: Auth, events: seq<Event>) {
    forall i :: 0 <= i < |events| && !events[i].LoseKey? ==> DatabaseLocks(a, events[i].now)
  }

  ghost predicate NeverReset(events: seq<Event>, x: Secret) {
    forall i :: 0 <= i < |events| ==> !(events[i].Reset? && events[i].secret == x)
  }

  lemma LockedEvent(s: State, e: Event, x: Secret)
    requires !e.LoseKey? ==> DatabaseLocks(Columns(s, x), e.now)
    requires !(e.Reset? && e.secret == x)
    ensures Columns(Handle(s, e).0, x) == Columns(s, x)
    ensures Compares(e, x) ==> (Handle(s, e).1 == Locked <==> !e.RevokeId?)
  {
  }

  lemma {:induction false} LockedColumnsStay(s: State, events: seq<Event>, x: Secret)
    requires WithinLock(Columns(s, x), events) && NeverReset(events, x)
    ensures Columns(Run(s, events), x) == Columns(s, x)
  {
    if events != [] {
      LockedColumnsStay(s, events[..|events| - 1], x);
      LockedEvent(Run(s, events[..|events| - 1]), events[|events| - 1], x);
    }
  }

  /**
   Until the lock in the database runs out or is reset, whatever keys Redis loses and whatever the other
   secrets do: the secret's columns do not move, and of all events that would compare it exactly the
   Universal ID revocations get to.
   */
  lemma {:induction false} DatabaseLockHolds(s: State, events: seq<Event>, x: Secret)
    requires WithinLock(Columns(s, x), events) && NeverReset(events, x)
    ensures Columns(Run(s, events), x) == Columns(s, x)
    ensures forall i :: 0 <= i < |events| && Compares(events[i], x) ==>
              (OutcomeAt(s, events, i) == Locked <==> !events[i].RevokeId?)
  {
    LockedColumnsStay(s, events, x);
    forall i | 0 <= i < |events| && Compares(events[i], x)
      ensures OutcomeAt(s, events, i) == Locked <==> !events[i].RevokeId?
    {
      LockedColumnsStay(s, events[..i], x);
      LockedEvent(Run(s, events[..i]), events[i], x);
    }
  }

  /** A hard lock has no end: only a reset of the secret lifts it. */
  lemma {:induction false} HardLockHolds(s: State, events: seq<Event>, x: Secret)
    requires Columns(s, x).hardLocked && NeverReset(events, x)
    ensures Columns(Run(s, events), x) == Columns(s, x)
    ensures forall i :: 0 <= i < |events| && Compares(events[i], x) && !events[i].RevokeId? ==>
              OutcomeAt(s, events, i) == Locked
  {
    DatabaseLockHolds(s, events, x);
  }

  // ----- what Redis adds to the database

  function TimeOf(e: Event, now: int): int {
    if e.LoseKey? then now else e.now
  }

  /** The clock after a run that starts at a moment. */
  function ClockAfter(start: int, events: seq<Event>): int {
    if events == [] then start else TimeOf(events[|events| - 1], ClockAfter(start, events[..|events| - 1]))
  }

  ghost predicate ClockRuns(start: int, events: seq<Event>) {
    events == []
    || (ClockRuns(start, events[..|events| - 1])
        && ClockAfter(start, events[..|events| - 1]) <= ClockAfter(start, events))
  }

  /**
   A key that still locks was written by one of its factor's secrets, and shows that secret's own timed
   lock unless the columns were reset in between.
   */
  predicate KeyExplained(s: State, f: Factor, now: int) {
    var k := KeyOf(s, f);
    KeyLocks(k, now) ==>
      && FactorOf(k.value.writer) == f
      && (!k.value.orphaned ==> Columns(s, k.value.writer).lockedUntil == Some(k.value.until))
  }

  lemma EventKeepsExplained(s: State, e: Event, f: Factor, now: int)
    requires KeyExplained(s, f, now) && now <= TimeOf(e, now)
    ensures KeyExplained(Handle(s, e).0, f, TimeOf(e, now))
  {
  }

  lemma {:induction false} KeysAlwaysExplained(start: int, events: seq<Event>, f: Factor)
    requires ClockRuns(start, events)
    ensures KeyExplained(Run(START, events), f, ClockAfter(start, events))
  {
    if events != [] {
      var before := events[..|events| - 1];
      KeysAlwaysExplained(start, before, f);
      EventKeepsExplained(Run(START, before), events[|events| - 1], f, ClockAfter(start, before));
    }
  }

  /** The key locks, and its lock is another secret's, or one that a reset has already lifted. */
  predicate StrangerLocks(s: State, x: Secret, now: int) {
    var k := KeyOf(s, FactorOf(x));
    KeyLocks(k, now) && (k.value.writer != x || k.value.orphaned)
  }

  /**
   In every run, with any keys lost and any resets, a submission of a secret is locked out exactly when
   its own columns lock it, or a live key does that the other secret of its factor wrote or that was
   left behind by a reset.
   */
  lemma {:induction false} LockedIff(start: int, events: seq<Event>, x: Secret, now: int)
    requires ClockRuns(start, events) && ClockAfter(start, events) <= now
    ensures IsLocked(Run(START, events), x, now)
            <==> DatabaseLocks(Columns(Run(START, events), x), now) || StrangerLocks(Run(START, events), x, now)
  {
    KeysAlwaysExplained(start, events, FactorOf(x));
  }

  /** The PIN has its key to itself, so until a reset Redis only repeats what its columns say. */
  lemma {:induction false} PinKeyIsACache(start: int, events: seq<Event>, now: int)
    requires ClockRuns(start, events) && ClockAfter(start, events) <= now && NeverReset(events, Pin)
    ensures IsLocked(Run(START, events), Pin, now) <==> DatabaseLocks(Run(START, events).pin, now)
  {
    LockedIff(start, events, Pin, now);
    PinKeyIsOwn(events);
  }

  lemma {:induction false} PinKeyIsOwn(events: seq<Event>)
    requires NeverReset(events, Pin)
    ensures var k := Run(START, events).pinKey;
            k.Some? ==> k.value.writer == Pin && !k.value.orphaned
  {
    if events != [] {
      PinKeyIsOwn(events[..|events| - 1]);
    }
  }

  // ----- runs that show it

  /** Five wrong submissions of the passcode or of the UPP. */
  function FiveWrong(x: Secret): seq<Event> {
    [Submit(x, 0, false), Submit(x, 0, false), Submit(x, 0, false), Submit(x, 0, false), Submit(x, 0, false)]
  }

  lemma FiveWrongLock(x: Secret)
    requires x != Pin
    ensures Run(START, FiveWrong(x))
            == WithColumns(START, x, Auth(5, Some(15 * MINUTE_MS), false, 1))
                 .(passcodeKey := Some(UntilKey(15 * MINUTE_MS, 15 * MINUTE_MS, x, false)))
  {
    var all := FiveWrong(x);
    var n := 0;
    while n < 4
      invariant 0 <= n <= 4
      invariant Run(START, all[..n]) == WithColumns(START, x, Auth(n, None, false, 0))
    {
      assert all[..n + 1][..n] == all[..n];
      ThresholdsAre(n + 1);
      n := n + 1;
    }
    assert all[..4] == all[..|all| - 1];
    ThresholdsAre(5);
  }

  /** Five wrong UPPs on Universal ID transfers refuse the login for 15 minutes, with its own columns clear. */
  lemma UppFailuresLockLogin(now: int)
    requires 0 <= now < 15 * MINUTE_MS
    ensures var s := Run(START, FiveWrong(Upp));
            s.login == CLEAR && Handle(s, Submit(Login, now, true)) == (s, Locked)
  {
    FiveWrongLock(Upp);
  }

  /** A user who resets right after the fifth wrong passcode stays locked out for the rest of the 15 minutes. */
  lemma ResetCanLeaveALock(now: int)
    requires 1 <= now < 15 * MINUTE_MS
    ensures var s := Run(START, FiveWrong(Login) + [Reset(Login, 1)]);
            s.login == CLEAR && Handle(s, Submit(Login, now, true)) == (s, Locked)
  {
    FiveWrongLock(Login);
    assert (FiveWrong(Login) + [Reset(Login, 1)])[..5] == FiveWrong(Login);
  }

  // ----- the service

  /** One user's lockout columns and keys, changed in place. */
  class LockoutStore {
    var login: Auth
    var upp: Auth
    var pin: Auth
    var passcodeKey: Option<UntilKey>
    var pinKey: Option<UntilKey>

    ghost function View(): State
      reads this
    {
      State(login, upp, pin, passcodeKey, pinKey)
    }

    constructor ()
      ensures View() == START
    {
      login, upp, pin, passcodeKey, pinKey := CLEAR, CLEAR, CLEAR, None, None;
    }

    function AuthOf(x: Secret): (a: Auth)
      reads this
      ensures a == Columns(View(), x)
    {
      if x == Login then login else if x == Upp then upp else pin
    }

    method UpdateAuth(x: Secret, a: Auth)
      modifies this`login, this`upp, this`pin
      ensures View() == WithColumns(old(View()), x, a)
    {
      match x {
        case Login => login := a;
        case Upp => upp := a;
        case Pin => pin := a;
      }
    }

    /** redis.set and redis.del of a factor's until key. */
    method SetUntil(f: Factor, k: Option<UntilKey>)
      modifies this`passcodeKey, this`pinKey
      ensures View() == WithKey(old(View()), f, k)
    {
      if f == PinFactor {
        pinKey := k;
      } else {
        passcodeKey := k;
      }
    }

    method AssertNotLocked(x: Secret, now: int) returns (ok: bool)
      ensures ok <==> !IsLocked(View(), x, now)
    {
      var untilVal := if x == Pin then pinKey else passcodeKey;
      if untilVal.Some? && now < untilVal.value.expiresAt {
        if now < untilVal.value.until {
          return false;
        }
      }
      var a := AuthOf(x);
      if a.hardLocked {
        return false;
      }
      ok := a.lockedUntil.None? || a.lockedUntil.value <= now;
    }

    method RecordFailedAttempt(x: Secret, now: int)
      modifies this
      ensures View() == RecordFailure(old(View()), x, now)
    {
      if x == Pin {
        ApplyPinLockout(now);
      } else {
        ApplyPasscodeLockout(x, now);
      }
    }

    method ApplyPasscodeLockout(x: Secret, now: int)
      requires x != Pin
      modifies this
      ensures View() == RecordFailure(old(View()), x, now)
    {
      var a := AuthOf(x);
      var newFailCount := a.failCount + 1;
      var schedule := FindSchedule(|PASSCODE_LOCKOUT_SCHEDULE|, newFailCount);
      var isNewLockout := IsThreshold(newFailCount);
      if schedule.None? || !isNewLockout {
        UpdateAuth(x, Auth(newFailCount, None, false, a.lockoutCount));
        return;
      }
      var newLockoutCount := a.lockoutCount + 1;
      var hardLocked := newLockoutCount >= PASSCODE_HARD_LOCK_AFTER_LOCKOUTS;
      if hardLocked {
        SetUntil(PasscodeFactor, None);
        UpdateAuth(x, Auth(newFailCount, None, true, newLockoutCount));
        return;
      }
      var lockedUntil := now + schedule.value.durationMs;
      SetUntil(PasscodeFactor, Some(UntilKey(lockedUntil, lockedUntil, x, false)));
      UpdateAuth(x, Auth(newFailCount, Some(lockedUntil), false, newLockoutCount));
    }

    method ApplyPinLockout(now: int)
      modifies this
      ensures View() == RecordFailure(old(View()), Pin, now)
    {
      var newFailCount := pin.failCount + 1;
      if newFailCount < PIN_HARD_LOCK_FAILURES {
        UpdateAuth(Pin, Auth(newFailCount, None, false, pin.lockoutCount));
        return;
      }
      var newLockoutCount := pin.lockoutCount + 1;
      var hardLocked := newLockoutCount >= PIN_HARD_LOCK_AFTER_LOCKOUTS;
      if hardLocked {
        SetUntil(PinFactor, None);
        UpdateAuth(Pin, Auth(newFailCount, None, true, newLockoutCount));
        return;
      }
      var lockedUntil := now + PIN_LOCK_DURATION_MS;
      SetUntil(PinFactor, Some(UntilKey(lockedUntil, lockedUntil, Pin, false)));
      UpdateAuth(Pin, Auth(newFailCount, Some(lockedUntil), false, newLockoutCount));
    }

    /** login, unlockWithPasscode, verifyTransactionPin, verifyUpp: the comparison's result is an input. */
    method SubmitSecret(x: Secret, now: int, correct: bool) returns (r: Outcome)
      modifies this
      ensures (View(), r) == Handle(old(View()), Submit(x, now, correct))
    {
      var ok := AssertNotLocked(x, now);
      if !ok {
        return Locked;
      }
      if !correct {
        RecordFailedAttempt(x, now);
        return Wrong;
      }
      SetUntil(if x == Pin then PinFactor else PasscodeFactor, None);
      UpdateAuth(x, AuthOf(x).(failCount := 0, lockedUntil := None, hardLocked := false));
      return Right;
    }

    method ChangeLoginPasscode(now: int, correct: bool) returns (r: Outcome)
      modifies this
      ensures (View(), r) == Handle(old(View()), ChangePasscode(now, correct))
    {
      var ok := AssertNotLocked(Login, now);
      if !ok {
        return Locked;
      }
      if !correct {
        RecordFailedAttempt(Login, now);
        return Wrong;
      }
      login := login.(failCount := 0, lockedUntil := None, hardLocked := false);
      return Right;
    }

    /** validatePin of the bill payments. */
    method ValidateBillPin(now: int, correct: bool) returns (r: Outcome)
      ensures (View(), r) == Handle(View(), PayBill(now, correct))
    {
      if pin.hardLocked {
        return Locked;
      }
      if pin.lockedUntil.Some? && pin.lockedUntil.value > now {
        return Locked;
      }
      r := if correct then Right else Wrong;
    }

    /** The keys in Redis are not touched; only their history notes that the lock they show was lifted. */
    method ResetSecret(x: Secret, now: int)
      modifies this
      ensures View() == Handle(old(View()), Reset(x, now)).0
    {
      UpdateAuth(x, CLEAR);
      var untilVal := if x == Pin then pinKey else passcodeKey;
      if untilVal.Some? && untilVal.value.writer == x {
        SetUntil(FactorOf(x), Some(untilVal.value.(orphaned := true)));
      }
    }
  }
}
