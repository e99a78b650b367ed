/** KYC tiers: the daily limits, the upgrade state machine and its cooldown. */
module Kyc {
  import opened Common

  datatype Channel = FlowkeyToFlowkey | FlowkeyToBank | Airtime | OtherBills

  /** TIER_LIMITS, in kobo. */
  function TierLimit(tier: int, channel: Channel): int {
    match channel
    case FlowkeyToFlowkey => if tier == 1 then 5000000 else if tier == 2 then 100000000 else 500000000
    case FlowkeyToBank => if tier == 1 then 5000000 else if tier == 2 then 100000000 else 500000000
    case Airtime => if tier == 1 then 5000000 else 20000000
    case OtherBills => if tier == 1 then 50000000 else 100000000
  }

  /** A higher tier never has a lower limit. */
  lemma LimitsAreMonotone(low: int, high: int, channel: Channel)
    requires 1 <= low <= high
    ensures TierLimit(low, channel) <= TierLimit(high, channel)
  {
  }

  /** The tiers a request may ask for. */
  type Target = t: int | 2 <= t <= 3 witness 2

  datatype AttemptStatus = Passed | Failed | Error

  datatype Attempt = Attempt(target: Target, status: AttemptStatus, createdAt: int, cooldownUntil: Option<int>)

  datatype Record = Record(tier: int, attempts: seq<Attempt>)

  /** What the identity provider made of an attempt, in production. */
  datatype Verdict = Verified | Refused | Unavailable | Threw

  datatype Result = Conflict | Wait(until: int) | Upgraded(tier: int) | NotVerified | ServiceUnavailable | Errored

  /** A stored tier below 1 counts as 1. */
  function CurrentTier(raw: int): int {
    if raw < 1 then 1 else raw
  }

  /** The cooldown of the latest failed or errored attempt for a target. */
  function RecentCooldown(attempts: seq<Attempt>, target: Target): Option<int> {
    if attempts == [] then None
    else
      var a := attempts[|attempts| - 1];
      if a.target == target && a.status != Passed then a.cooldownUntil
      else RecentCooldown(attempts[..|attempts| - 1], target)
  }

  /** upgradeKyc. A failed or unavailable verification starts a cooldown; a thrown error does not. */
  function Upgrade(rec: Record, target: Target, v: Verdict, now: int, cooldown: nat): (Record, Result) {
    var recent := RecentCooldown(rec.attempts, target);
    if target != CurrentTier(rec.tier) + 1 then (rec, Conflict)
    else if recent.Some? && recent.value > now then (rec, Wait(recent.value))
    else
      match v
      case Verified => (Record(target, rec.attempts + [Attempt(target, Passed, now, None)]), Upgraded(target))
      case Refused =>
        (rec.(attempts := rec.attempts + [Attempt(target, Failed, now, Some(now + cooldown))]), NotVerified)
      case Unavailable =>
        (rec.(attempts := rec.attempts + [Attempt(target, Failed, now, Some(now + cooldown))]), ServiceUnavailable)
      case Threw => (rec.(attempts := rec.attempts + [Attempt(target, Error, now, None)]), Errored)
  }

  datatype Try = Try(target: Target, verdict: Verdict, now: int, cooldown: nat)

  function Run(rec: Record, tries: seq<Try>): Record {
    if tries == [] then rec
    else
      var t := tries[|tries| - 1];
      Upgrade(Run(rec, tries[..|tries| - 1]), t.target, t.verdict, t.now, t.cooldown).0
  }

  function Passes(attempts: seq<Attempt>): nat {
    if attempts == [] then 0
    else Passes(attempts[..|attempts| - 1]) + if attempts[|attempts| - 1].status == Passed then 1 else 0
  }

  lemma PassesAppend(attempts: seq<Attempt>, a: Attempt)
    ensures Passes(attempts + [a]) == Passes(attempts) + if a.status == Passed then 1 else 0
  {
    assert (attempts + [a])[..|attempts|] == attempts;
  }

  lemma UpgradeCounts(rec: Record, t: Try)
    ensures var after := Upgrade(rec, t.target, t.verdict, t.now, t.cooldown).0;
            CurrentTier(after.tier) - CurrentTier(rec.tier) == Passes(after.attempts) - Passes(rec.attempts)
  {
    match t.verdict
    case Verified => PassesAppend(rec.attempts, Attempt(t.target, Passed, t.now, None));
    case Refused => PassesAppend(rec.attempts, Attempt(t.target, Failed, t.now, Some(t.now + t.cooldown)));
    case Unavailable => PassesAppend(rec.attempts, Attempt(t.target, Failed, t.now, Some(t.now + t.cooldown)));
    case Threw => PassesAppend(rec.attempts, Attempt(t.target, Error, t.now, None));
  }

  /** Each tier gained is one passed attempt: tiers rise by one at a time and never fall. */
  lemma {:induction false} TierCountsPasses(rec: Record, tries: seq<Try>)
    ensures CurrentTier(Run(rec, tries).tier) - CurrentTier(rec.tier)
            == Passes(Run(rec, tries).attempts) - Passes(rec.attempts)
  {
    if tries != [] {
      TierCountsPasses(rec, tries[..|tries| - 1]);
      UpgradeCounts(Run(rec, tries[..|tries| - 1]), tries[|tries| - 1]);
    }
  }

  // ----- cooldowns hold

  ghost predicate NonDecreasing(tries: seq<Try>) {
    forall i, j :: 0 <= i < j < |tries| ==> tries[i].now <= tries[j].now
  }

  /** No attempt was made inside the cooldown of an earlier one for the same target. */
  ghost predicate CooldownsHold(attempts: seq<Attempt>) {
    forall i, j :: 0 <= i < j < |attempts| && attempts[i].target == attempts[j].target && attempts[i].cooldownUntil.Some?
      ==> attempts[i].cooldownUntil.value <= attempts[j].createdAt
  }

  ghost predicate AttemptsFit(attempts: seq<Attempt>, now: int) {
    && CooldownsHold(attempts)
    && (forall i :: 0 <= i < |attempts| ==> attempts[i].createdAt <= now)
    && (forall i :: 0 <= i < |attempts| ==> (attempts[i].status == Failed <==> attempts[i].cooldownUntil.Some?))
  }

  /** The latest cooldown speaks for all earlier ones: each had ended before a later attempt was made. */
  lemma {:induction false} RecentSpeaksForAll(attempts: seq<Attempt>, target: Target, now: int)
    requires AttemptsFit(attempts, now)
    requires var recent := RecentCooldown(attempts, target); recent.Some? ==> recent.value <= now
    ensures forall i :: 0 <= i < |attempts| && attempts[i].target == target && attempts[i].cooldownUntil.Some?
              ==> attempts[i].cooldownUntil.value <= now
  {
    if attempts != [] {
      var n := |attempts| - 1;
      if attempts[n].target != target || attempts[n].status == Passed {
        RecentSpeaksForAll(attempts[..n], target, now);
        forall i | 0 <= i < n && attempts[i].target == target && attempts[i].cooldownUntil.Some?
          ensures attempts[i].cooldownUntil.value <= now
        {
          assert attempts[..n][i] == attempts[i];
        }
      }
    }
  }

  lemma AttemptKeepsFit(attempts: seq<Attempt>, a: Attempt, now: int)
    requires AttemptsFit(attempts, now) && a.createdAt == now
    requires a.status == Failed <==> a.cooldownUntil.Some?
    requires var recent := RecentCooldown(attempts, a.target); recent.Some? ==> recent.value <= now
    ensures AttemptsFit(attempts + [a], now)
  {
    RecentSpeaksForAll(attempts, a.target, now);
  }

  lemma UpgradeKeepsFit(rec: Record, t: Try)
    requires AttemptsFit(rec.attempts, t.now)
    ensures AttemptsFit(Upgrade(rec, t.target, t.verdict, t.now, t.cooldown).0.attempts, t.now)
  {
    var recent := RecentCooldown(rec.attempts, t.target);
    if t.target == CurrentTier(rec.tier) + 1 && !(recent.Some? && recent.value > t.now) {
      match t.verdict
      case Verified => AttemptKeepsFit(rec.attempts, Attempt(t.target, Passed, t.now, None), t.now);
      case Refused => AttemptKeepsFit(rec.attempts, Attempt(t.target, Failed, t.now, Some(t.now + t.cooldown)), t.now);
      case Unavailable =>
        AttemptKeepsFit(rec.attempts, Attempt(t.target, Failed, t.now, Some(t.now + t.cooldown)), t.now);
      case Threw => AttemptKeepsFit(rec.attempts, Attempt(t.target, Error, t.now, None), t.now);
    }
  }

  lemma FitLater(attempts: seq<Attempt>, now: int, later: int)
    requires AttemptsFit(attempts, now) && now <= later
    ensures AttemptsFit(attempts, later)
  {
  }

  /**
   Over any run with a non-decreasing clock every failed attempt has a cooldown and every cooldown is
   waited out, even across attempts that errored.
   */
  lemma {:induction false} CooldownsAreWaitedOut(tries: seq<Try>, tier: int, now: int)
    requires NonDecreasing(tries)
    requires tries != [] ==> tries[|tries| - 1].now <= now
    ensures AttemptsFit(Run(Record(tier, []), tries).attempts, now)
  {
    if tries != [] {
      var before, t := tries[..|tries| - 1], tries[|tries| - 1];
      assert before != [] ==> before[|before| - 1] == tries[|before| - 1];
      CooldownsAreWaitedOut(before, tier, t.now);
      UpgradeKeepsFit(Run(Record(tier, []), before), t);
      FitLater(Run(Record(tier, []), tries).attempts, t.now, now);
    }
  }

  // ----- what each request gets

  /** A cooldown for the target that has not run out, of whichever attempt. */
  predicate CoolsDown(attempts: seq<Attempt>, target: Target, now: int) {
    exists i :: 0 <= i < |attempts| && attempts[i].target == target
                && attempts[i].cooldownUntil.Some? && now < attempts[i].cooldownUntil.value
  }

  lemma {:induction false} RecentIsOneOf(attempts: seq<Attempt>, target: Target)
    requires RecentCooldown(attempts, target).Some?
    ensures exists i :: 0 <= i < |attempts| && attempts[i].target == target
                        && attempts[i].cooldownUntil == RecentCooldown(attempts, target)
  {
    var n := |attempts| - 1;
    if attempts[n].target != target || attempts[n].status == Passed {
      RecentIsOneOf(attempts[..n], target);
      var i :| 0 <= i < n && attempts[..n][i].target == target
               && attempts[..n][i].cooldownUntil == RecentCooldown(attempts[..n], target);
      assert attempts[i] == attempts[..n][i];
    }
  }

  /** After any run of attempts with a clock that does not go back, the latest cooldown runs exactly when any does. */
  lemma {:induction false} LatestCooldownDecides(tries: seq<Try>, tier: int, target: Target, now: int)
    requires NonDecreasing(tries) && (tries != [] ==> tries[|tries| - 1].now <= now)
    ensures var attempts := Run(Record(tier, []), tries).attempts;
            var recent := RecentCooldown(attempts, target);
            (recent.Some? && recent.value > now) <==> CoolsDown(attempts, target, now)
  {
    var attempts := Run(Record(tier, []), tries).attempts;
    CooldownsAreWaitedOut(tries, tier, now);
    var recent := RecentCooldown(attempts, target);
    if recent.Some? && recent.value > now {
      RecentIsOneOf(attempts, target);
    } else {
      RecentSpeaksForAll(attempts, target, now);
    }
  }

  /** What a verification leaves: the status it is filed under, and the cooldown a failed one starts. */
  predicate IsFiled(a: Attempt, t: Try) {
    && a.target == t.target && a.createdAt == t.now
    && (a.status == Passed <==> t.verdict == Verified)
    && (a.status == Error <==> t.verdict == Threw)
    && a.cooldownUntil == (if t.verdict == Refused || t.verdict == Unavailable then Some(t.now + t.cooldown) else None)
  }

  /**
   After any such run a request is verified at all exactly when it asks for the next tier and no cooldown for
   it is running. It raises the tier exactly when the verification succeeds, and is filed either way.
   */
  lemma {:induction false} VerifiedIff(tries: seq<Try>, tier: int, t: Try)
    requires NonDecreasing(tries) && (tries != [] ==> tries[|tries| - 1].now <= t.now)
    ensures var rec := Run(Record(tier, []), tries);
            var (after, reply) := Upgrade(rec, t.target, t.verdict, t.now, t.cooldown);
            var next, cools := t.target == (if rec.tier < 1 then 2 else rec.tier + 1), CoolsDown(rec.attempts, t.target, t.now);
            && (reply == Conflict <==> !next)
            && (reply.Wait? <==> next && cools)
            && (reply == Upgraded(t.target) <==> next && !cools && t.verdict == Verified)
            && (reply == NotVerified <==> next && !cools && t.verdict == Refused)
            && (reply == ServiceUnavailable <==> next && !cools && t.verdict == Unavailable)
            && (!next || cools ==> after == rec)
            && (next && !cools ==>
                  && after.tier == (if t.verdict == Verified then t.target else rec.tier)
                  && |after.attempts| == |rec.attempts| + 1 && after.attempts[..|rec.attempts|] == rec.attempts
                  && IsFiled(after.attempts[|rec.attempts|], t))
  {
    LatestCooldownDecides(tries, tier, t.target, t.now);
  }

  function Request(rec: Record, t: Try): (Record, Result) {
    Upgrade(rec, t.target, t.verdict, t.now, t.cooldown)
  }

  /** The next tier's latest attempt left this cooldown. */
  predicate HeldUntil(rec: Record, target: Target, until: int) {
    target == CurrentTier(rec.tier) + 1 && RecentCooldown(rec.attempts, target) == Some(until)
  }

  lemma FailureHolds(rec: Record, t: Try)
    requires Request(rec, t).1 in {NotVerified, ServiceUnavailable}
    ensures HeldUntil(Request(rec, t).0, t.target, t.now + t.cooldown)
  {
    var attempts := Request(rec, t).0.attempts;
    assert attempts[|attempts| - 1] == Attempt(t.target, Failed, t.now, Some(t.now + t.cooldown));
  }

  lemma HeldIsTold(rec: Record, target: Target, until: int, again: Try)
    requires HeldUntil(rec, target, until) && again.now < until
    ensures Request(rec, again) == (rec, if again.target == target then Wait(until) else Conflict)
  {
  }

  lemma {:induction false} HeldStays(rec: Record, target: Target, until: int, more: seq<Try>)
    requires HeldUntil(rec, target, until) && forall i :: 0 <= i < |more| ==> more[i].now < until
    ensures Run(rec, more) == rec
  {
    if more != [] {
      var n := |more| - 1;
      HeldStays(rec, target, until, more[..n]);
      HeldIsTold(rec, target, until, more[n]);
    }
  }

  /**
   A verification that fails, or finds the provider unavailable, holds for the whole cooldown it starts:
   whatever is asked before its end, nothing changes, and the target is told to wait until then.
   */
  lemma {:induction false} FailureHoldsForCooldown(rec: Record, t: Try, more: seq<Try>, again: Try)
    requires Request(rec, t).1 in {NotVerified, ServiceUnavailable}
    requires forall i :: 0 <= i < |more| ==> more[i].now < t.now + t.cooldown
    requires again.now < t.now + t.cooldown
    ensures Run(Request(rec, t).0, more) == Request(rec, t).0
    ensures Request(Request(rec, t).0, again).0 == Request(rec, t).0
    ensures Request(Request(rec, t).0, again).1 == if again.target == t.target then Wait(t.now + t.cooldown) else Conflict
  {
    var failed := Request(rec, t).0;
    FailureHolds(rec, t);
    HeldStays(failed, t.target, t.now + t.cooldown, more);
    HeldIsTold(failed, t.target, t.now + t.cooldown, again);
  }

  /** The limits in naira. Transfers and airtime start at 50,000 a day; a tier raises transfers most and airtime once. */
  lemma LimitsInNaira(channel: Channel)
    ensures var naira := [TierLimit(1, channel) / 100, TierLimit(2, channel) / 100, TierLimit(3, channel) / 100];
            match channel
            case FlowkeyToFlowkey => naira == [50_000, 1_000_000, 5_000_000]
            case FlowkeyToBank => naira == [50_000, 1_000_000, 5_000_000]
            case Airtime => naira == [50_000, 200_000, 200_000]
            case OtherBills => naira == [500_000, 1_000_000, 1_000_000]
    ensures forall tier :: 1 <= tier <= 3 ==> TierLimit(tier, channel) % 100 == 0
  {
  }

  /** The account row and its attempts, updated in place. */
  class KycAccount {
    var tier: int
    var attempts: seq<Attempt>

    ghost function State(): Record
      reads this
    {
      Record(tier, attempts)
    }

    constructor (initialTier: int)
      ensures State() == Record(initialTier, [])
    {
      tier, attempts := initialTier, [];
    }

    method UpgradeKyc(target: Target, v: Verdict, now: int, cooldown: nat) returns (r: Result)
      modifies this
      ensures (State(), r) == Upgrade(old(State()), target, v, now, cooldown)
    {
      var currentTier := if tier < 1 then 1 else tier;
      if target != currentTier + 1 {
        return Conflict;
      }
      var recent := RecentCooldown(attempts, target);
      if recent.Some? && recent.value > now {
        return Wait(recent.value);
      }
      match v {
        case Verified =>
          attempts := attempts + [Attempt(target, Passed, now, None)];
          tier := target;
          r := Upgraded(target);
        case Refused =>
          attempts := attempts + [Attempt(target, Failed, now, Some(now + cooldown))];
          r := NotVerified;
        case Unavailable =>
          attempts := attempts + [Attempt(target, Failed, now, Some(now + cooldown))];
          r := ServiceUnavailable;
        case Threw =>
          attempts := attempts + [Attempt(target, Error, now, None)];
          r := Errored;
      }
    }
  }
}
