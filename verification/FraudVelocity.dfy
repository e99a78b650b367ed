/** The sliding-window velocity counter in Redis and the fraud checks that rest on it. */
module FraudVelocity {
  import opened Common

  const VELOCITY_WINDOW_SECONDS := 3600
  const MAX_INTERNAL_PER_HOUR := 10
  const MAX_UID_AUTH_PER_HOUR := 3
  const MAX_BANK_PER_HOUR := 5
  const LARGE_TRANSFER_THRESHOLD_KOBO := 50000000

  /**
   A sorted set: the scores of its members, which are unique, in insertion order, and the moment
   its key expires. None is a missing key.
   */
  datatype ZSet = ZSet(scores: seq<int>, expiresAt: int)

  /** zremrangebyscore -inf windowStart: what is left has a score above the bound. */
  function Prune(scores: seq<int>, windowStart: int): seq<int> {
    if scores == [] then []
    else
      var kept := Prune(scores[..|scores| - 1], windowStart);
      if scores[|scores| - 1] > windowStart then kept + [scores[|scores| - 1]] else kept
  }

  /** The scores Redis still has for a key at a moment. */
  function LiveScores(z: Option<ZSet>, now: int): seq<int> {
    if z.Some? && now < z.value.expiresAt then z.value.scores else []
  }

  /** The pipeline of incrementVelocity: prune, add, count, expire. */
  function Increment(z: Option<ZSet>, now: int): (Option<ZSet>, nat) {
    var scores := Prune(LiveScores(z, now), now - VELOCITY_WINDOW_SECONDS) + [now];
    (Some(ZSet(scores, now + VELOCITY_WINDOW_SECONDS + 60)), |scores|)
  }

  // ----- the count is the number of attempts in the window

  /** How many of the moments lie in (from, to]. */
  function InWindow(times: seq<int>, from: int, to: int): nat {
    if times == [] then 0
    else
      InWindow(times[..|times| - 1], from, to) + if from < times[|times| - 1] <= to then 1 else 0
  }

  ghost predicate NonDecreasing(times: seq<int>) {
    forall i, j :: 0 <= i < j < |times| ==> times[i] <= times[j]
  }

  lemma {:induction false} PruneTwice(scores: seq<int>, a: int, b: int)
    requires a <= b
    ensures Prune(Prune(scores, a), b) == Prune(scores, b)
  {
    if scores != [] {
      var n := |scores| - 1;
      PruneTwice(scores[..n], a, b);
      if scores[n] > a {
        assert Prune(scores, a)[..|Prune(scores, a)| - 1] == Prune(scores[..n], a);
      } else {
        assert Prune(scores, a) == Prune(scores[..n], a);
      }
    }
  }

  lemma PruneAppend(scores: seq<int>, x: int, a: int)
    ensures Prune(scores + [x], a) == if x > a then Prune(scores, a) + [x] else Prune(scores, a)
  {
    assert (scores + [x])[..|scores|] == scores;
  }

  lemma {:induction false} PruneNone(scores: seq<int>, a: int)
    requires forall i :: 0 <= i < |scores| ==> scores[i] <= a
    ensures Prune(scores, a) == []
  {
    if scores != [] {
      PruneNone(scores[..|scores| - 1], a);
    }
  }

  lemma {:induction false} PruneCounts(times: seq<int>, from: int, to: int)
    requires forall i :: 0 <= i < |times| ==> times[i] <= to
    ensures |Prune(times, from)| == InWindow(times, from, to)
  {
    if times != [] {
      PruneCounts(times[..|times| - 1], from, to);
    }
  }

  /** A key's set after attempts at these moments: those of the last attempt's window, kept while they can still count. */
  ghost predicate HoldsHistory(z: Option<ZSet>, times: seq<int>, last: int) {
    if times == [] then z.None?
    else
      && (forall i :: 0 <= i < |times| ==> times[i] <= last)
      && z == Some(ZSet(Prune(times, last - VELOCITY_WINDOW_SECONDS), last + VELOCITY_WINDOW_SECONDS + 60))
  }

  /** Pruning again, or losing the key to its expiry, leaves exactly the window that ends now. */
  lemma PruneFurther(scores: seq<int>, times: seq<int>, last: int, now: int)
    requires last <= now && forall i :: 0 <= i < |times| ==> times[i] <= last
    requires scores == if now < last + VELOCITY_WINDOW_SECONDS + 60 then Prune(times, last - VELOCITY_WINDOW_SECONDS) else []
    ensures Prune(scores, now - VELOCITY_WINDOW_SECONDS) == Prune(times, now - VELOCITY_WINDOW_SECONDS)
  {
    if now < last + VELOCITY_WINDOW_SECONDS + 60 {
      PruneTwice(times, last - VELOCITY_WINDOW_SECONDS, now - VELOCITY_WINDOW_SECONDS);
    } else {
      PruneNone(times, now - VELOCITY_WINDOW_SECONDS);
    }
  }

  lemma LiveIsWindow(z: Option<ZSet>, times: seq<int>, last: int, now: int)
    requires HoldsHistory(z, times, last) && (times != [] ==> last <= now)
    ensures Prune(LiveScores(z, now), now - VELOCITY_WINDOW_SECONDS) == Prune(times, now - VELOCITY_WINDOW_SECONDS)
  {
    if times != [] {
      PruneFurther(LiveScores(z, now), times, last, now);
    }
  }

  /** What an attempt leaves in Redis is again the pruned history. */
  lemma IncrementKeepsHistory(z: Option<ZSet>, times: seq<int>, last: int, now: int)
    requires HoldsHistory(z, times, last) && (times != [] ==> last <= now)
    ensures HoldsHistory(Increment(z, now).0, times + [now], now)
  {
    LiveIsWindow(z, times, last, now);
    PruneAppend(times, now, now - VELOCITY_WINDOW_SECONDS);
  }

  /** The count an attempt reads is the number of attempts, itself included, in the hour up to it. */
  lemma CountIsWindow(z: Option<ZSet>, times: seq<int>, last: int, now: int)
    requires HoldsHistory(z, times, last) && (times != [] ==> last <= now)
    ensures Increment(z, now).1 == InWindow(times + [now], now - VELOCITY_WINDOW_SECONDS, now)
  {
    var from := now - VELOCITY_WINDOW_SECONDS;
    var live := Prune(LiveScores(z, now), from);
    LiveIsWindow(z, times, last, now);
    assert Increment(z, now).1 == |live| + 1;
    WindowAppend(times, now, from, now);
    assert forall i :: 0 <= i < |times| ==> times[i] <= now;
    PruneCounts(times, from, now);
  }

  // ----- so no window admits more than the limit

  /** The moments whose flag is set. */
  function Kept(times: seq<int>, flags: seq<bool>): seq<int>
    requires |times| == |flags|
  {
    if times == [] then []
    else
      var kept := Kept(times[..|times| - 1], flags[..|times| - 1]);
      if flags[|times| - 1] then kept + [times[|times| - 1]] else kept
  }

  lemma WindowAppend(times: seq<int>, x: int, from: int, to: int)
    ensures InWindow(times + [x], from, to) == InWindow(times, from, to) + if from < x <= to then 1 else 0
  {
    assert (times + [x])[..|times|] == times;
  }

  lemma {:induction false} KeptInWindow(times: seq<int>, flags: seq<bool>, from: int, to: int)
    requires |times| == |flags|
    ensures InWindow(Kept(times, flags), from, to) <= InWindow(times, from, to)
  {
    if times != [] {
      var n := |times| - 1;
      KeptInWindow(times[..n], flags[..n], from, to);
      WindowAppend(Kept(times[..n], flags[..n]), times[n], from, to);
    }
  }

  lemma {:induction false} WindowGrows(times: seq<int>, from: int, to: int, wider: int)
    requires wider <= from
    ensures InWindow(times, from, to) <= InWindow(times, wider, to)
  {
    if times != [] {
      WindowGrows(times[..|times| - 1], from, to, wider);
    }
  }

  lemma {:induction false} WindowEnds(times: seq<int>, from: int, to: int, last: int)
    requires last <= to && forall i :: 0 <= i < |times| ==> times[i] <= last
    ensures InWindow(times, from, to) == InWindow(times, from, last)
  {
    if times != [] {
      WindowEnds(times[..|times| - 1], from, to, last);
    }
  }

  /** A flag is set only when the hour up to its moment holds at most `limit` attempts. */
  predicate FlaggedWithin(times: seq<int>, flags: seq<bool>, limit: nat) {
    && |times| == |flags|
    && (times != [] ==>
          var n := |times| - 1;
          && FlaggedWithin(times[..n], flags[..n], limit)
          && (flags[n] ==> InWindow(times, times[n] - VELOCITY_WINDOW_SECONDS, times[n]) <= limit))
  }

  lemma FlaggedAppend(times: seq<int>, flags: seq<bool>, x: int, flag: bool, limit: nat)
    requires FlaggedWithin(times, flags, limit)
    requires flag ==> InWindow(times + [x], x - VELOCITY_WINDOW_SECONDS, x) <= limit
    ensures FlaggedWithin(times + [x], flags + [flag], limit)
  {
    assert (times + [x])[..|times|] == times && (flags + [flag])[..|flags|] == flags;
  }

  /** An admitted last attempt leaves every window it falls in within the limit. */
  lemma LastHadRoom(times: seq<int>, flags: seq<bool>, limit: nat, end: int)
    requires NonDecreasing(times) && FlaggedWithin(times, flags, limit)
    requires times != [] && flags[|times| - 1] && times[|times| - 1] <= end
    ensures InWindow(Kept(times, flags), end - VELOCITY_WINDOW_SECONDS, end) <= limit
  {
    var n := |times| - 1;
    var now, from := times[n], end - VELOCITY_WINDOW_SECONDS;
    KeptInWindow(times, flags, from, end);
    WindowEnds(times, from, end, now);
    WindowGrows(times, from, now, now - VELOCITY_WINDOW_SECONDS);
  }

  /** Every 3600-second window admits at most `limit` attempts, refused attempts counting against it too. */
  lemma {:induction false} WindowAdmitsAtMost(times: seq<int>, flags: seq<bool>, limit: nat, end: int)
    requires NonDecreasing(times) && FlaggedWithin(times, flags, limit)
    ensures InWindow(Kept(times, flags), end - VELOCITY_WINDOW_SECONDS, end) <= limit
  {
    if times != [] {
      var n := |times| - 1;
      if flags[n] && times[n] <= end {
        LastHadRoom(times, flags, limit, end);
      } else {
        WindowAdmitsAtMost(times[..n], flags[..n], limit, end);
        WindowAppend(Kept(times[..n], flags[..n]), times[n], end - VELOCITY_WINDOW_SECONDS, end);
      }
    }
  }

  // ----- the checks

  datatype Key = Internal(wallet: nat) | UidAuth(uid: string) | Bank(wallet: nat)

  datatype Verdict = Blocked | Allowed(flagged: bool, velocityCount: nat)

  datatype Redis = Redis(sets: map<Key, ZSet>)

  function Lookup(r: Redis, k: Key): Option<ZSet> {
    if k in r.sets then Some(r.sets[k]) else None
  }

  /** incrementVelocity: a Redis failure is logged and counts as zero. */
  function Bump(r: Redis, k: Key, now: int, up: bool): (Redis, nat) {
    if !up then (r, 0)
    else
      var next := Increment(Lookup(r, k), now);
      (Redis(r.sets[k := next.0.value]), next.1)
  }

  /** checkInternalTransferFraud: the stricter Universal ID counter moves only when the wallet's has room. */
  function CheckInternal(r: Redis, wallet: nat, amount: int, uid: Option<string>, now: int, up: bool): (Redis, Verdict) {
    var bumped := Bump(r, Internal(wallet), now, up);
    if bumped.1 > MAX_INTERNAL_PER_HOUR then (bumped.0, Blocked)
    else if uid.None? then (bumped.0, Allowed(amount > LARGE_TRANSFER_THRESHOLD_KOBO, bumped.1))
    else
      var byUid := Bump(bumped.0, UidAuth(uid.value), now, up);
      if byUid.1 > MAX_UID_AUTH_PER_HOUR then (byUid.0, Blocked)
      else (byUid.0, Allowed(amount > LARGE_TRANSFER_THRESHOLD_KOBO, bumped.1))
  }

  /** checkBankTransferFraud */
  function CheckBank(r: Redis, wallet: nat, amount: int, now: int, up: bool): (Redis, Verdict) {
    var bumped := Bump(r, Bank(wallet), now, up);
    if bumped.1 > MAX_BANK_PER_HOUR then (bumped.0, Blocked)
    else (bumped.0, Allowed(amount > LARGE_TRANSFER_THRESHOLD_KOBO, bumped.1))
  }

  datatype Check = InternalCheck(wallet: nat, amount: int, uid: Option<string>, now: int) | BankCheck(wallet: nat, amount: int, now: int)

  function Perform(r: Redis, c: Check): (Redis, Verdict) {
    match c
    case InternalCheck(w, amount, uid, now) => CheckInternal(r, w, amount, uid, now, true)
    case BankCheck(w, amount, now) => CheckBank(r, w, amount, now, true)
  }

  function LimitOf(k: Key): nat {
    match k
    case Internal(_) => MAX_INTERNAL_PER_HOUR
    case Bank(_) => MAX_BANK_PER_HOUR
    case UidAuth(_) => MAX_UID_AUTH_PER_HOUR
  }

  /** The wallet counter a check moves first. */
  function WalletKey(c: Check): Key {
    match c
    case InternalCheck(w, _, _, _) => Internal(w)
    case BankCheck(w, _, _) => Bank(w)
  }

  /** The check is about this wallet and channel, or about this typed Universal ID. */
  predicate Concerns(c: Check, k: Key) {
    WalletKey(c) == k || (c.InternalCheck? && c.uid.Some? && k == UidAuth(c.uid.value))
  }

  /** The count an increment of the key would read. */
  function CountRead(r: Redis, k: Key, now: int): nat {
    Increment(Lookup(r, k), now).1
  }

  /** The check moves this counter: a Universal ID's moves only when the wallet's has room. */
  predicate Touches(r: Redis, c: Check, k: Key) {
    Concerns(c, k) && (k.UidAuth? ==> CountRead(r, WalletKey(c), c.now) <= MAX_INTERNAL_PER_HOUR)
  }

  /**
   What a run of checks does to Redis, and what it says about one key: the moments its counter moved,
   the last of them, which of those checks were allowed, and the moments of all allowed checks that
   concern the key.
   */
  datatype History = History(redis: Redis, attempts: seq<int>, last: int, flags: seq<bool>, allowed: seq<int>)

  function Note(h: History, c: Check, k: Key): History {
    var touched := Touches(h.redis, c, k);
    var (redis, verdict) := Perform(h.redis, c);
    History(redis,
      if touched then h.attempts + [c.now] else h.attempts,
      if touched then c.now else h.last,
      if touched then h.flags + [verdict.Allowed?] else h.flags,
      if Concerns(c, k) && verdict.Allowed? then h.allowed + [c.now] else h.allowed)
  }

  function Watch(checks: seq<Check>, k: Key): History {
    if checks == [] then History(Redis(map[]), [], 0, [], [])
    else Note(Watch(checks[..|checks| - 1], k), checks[|checks| - 1], k)
  }

  ghost predicate ClockRuns(checks: seq<Check>) {
    forall i, j :: 0 <= i < j < |checks| ==> checks[i].now <= checks[j].now
  }

  /** A check moves the counters it touches by one attempt and leaves every other alone. */
  lemma CheckMovesItsCounters(r: Redis, c: Check, k: Key)
    ensures Lookup(Perform(r, c).0, k) == if Touches(r, c, k) then Increment(Lookup(r, k), c.now).0 else Lookup(r, k)
  {
  }

  /** An allowed check has touched every counter it concerns and read room on it. */
  lemma AllowedReadRoom(r: Redis, c: Check, k: Key)
    requires Concerns(c, k) && Perform(r, c).1.Allowed?
    ensures Touches(r, c, k) && CountRead(r, k, c.now) <= LimitOf(k)
  {
  }

  /** The key's set holds the pruned history of its attempts, all of them past. */
  ghost predicate CounterKept(h: History, k: Key, now: int) {
    HoldsHistory(Lookup(h.redis, k), h.attempts, h.last) && (h.attempts != [] ==> h.last <= now)
  }

  /** Flags are set only with room, and the allowed checks are the flagged ones. */
  ghost predicate FlagsKept(h: History, k: Key) {
    FlaggedWithin(h.attempts, h.flags, LimitOf(k)) && h.allowed == Kept(h.attempts, h.flags)
  }

  lemma KeptAppend(times: seq<int>, flags: seq<bool>, x: int, flag: bool)
    requires |times| == |flags|
    ensures Kept(times + [x], flags + [flag]) == if flag then Kept(times, flags) + [x] else Kept(times, flags)
  {
    assert (times + [x])[..|times|] == times && (flags + [flag])[..|flags|] == flags;
  }

  /** What one check means for one key. */
  lemma NoteOf(h: History, c: Check, k: Key) returns (redis: Redis, touched: bool, flag: bool)
    ensures Note(h, c, k)
            == History(redis, if touched then h.attempts + [c.now] else h.attempts, if touched then c.now else h.last,
                       if touched then h.flags + [flag] else h.flags,
                       if touched && flag then h.allowed + [c.now] else h.allowed)
    ensures Lookup(redis, k) == if touched then Increment(Lookup(h.redis, k), c.now).0 else Lookup(h.redis, k)
    ensures touched && flag ==> CountRead(h.redis, k, c.now) <= LimitOf(k)
  {
    redis, touched, flag := Perform(h.redis, c).0, Touches(h.redis, c, k), Perform(h.redis, c).1.Allowed?;
    CheckMovesItsCounters(h.redis, c, k);
    if Concerns(c, k) && flag {
      AllowedReadRoom(h.redis, c, k);
    }
  }

  lemma NoteKeepsCounter(h: History, c: Check, k: Key)
    requires CounterKept(h, k, c.now)
    ensures CounterKept(Note(h, c, k), k, c.now)
  {
    var _, touched, _ := NoteOf(h, c, k);
    if touched {
      IncrementKeepsHistory(Lookup(h.redis, k), h.attempts, h.last, c.now);
    }
  }

  lemma FlagsAppend(attempts: seq<int>, flags: seq<bool>, allowed: seq<int>, now: int, flag: bool, limit: nat)
    requires FlaggedWithin(attempts, flags, limit) && allowed == Kept(attempts, flags)
    requires flag ==> InWindow(attempts + [now], now - VELOCITY_WINDOW_SECONDS, now) <= limit
    ensures FlaggedWithin(attempts + [now], flags + [flag], limit)
    ensures (if flag then allowed + [now] else allowed) == Kept(attempts + [now], flags + [flag])
  {
    FlaggedAppend(attempts, flags, now, flag, limit);
    KeptAppend(attempts, flags, now, flag);
  }

  /** One check more: it may have been an attempt, and it may have been allowed, if the key's hour had room. */
  ghost predicate IsNoted(h: History, after: History, k: Key, now: int, touched: bool, flag: bool) {
    && (touched && flag ==> InWindow(h.attempts + [now], now - VELOCITY_WINDOW_SECONDS, now) <= LimitOf(k))
    && after.attempts == (if touched then h.attempts + [now] else h.attempts)
    && after.flags == (if touched then h.flags + [flag] else h.flags)
    && after.allowed == (if touched && flag then h.allowed + [now] else h.allowed)
  }

  lemma NoteIsNoted(h: History, c: Check, k: Key) returns (touched: bool, flag: bool)
    requires CounterKept(h, k, c.now)
    ensures IsNoted(h, Note(h, c, k), k, c.now, touched, flag)
  {
    var _, wasTouched, wasAllowed := NoteOf(h, c, k);
    touched, flag := wasTouched, wasAllowed;
    CountIsWindow(Lookup(h.redis, k), h.attempts, h.last, c.now);
  }

  lemma NotedKeepsFlags(h: History, after: History, k: Key, now: int, touched: bool, flag: bool)
    requires FlagsKept(h, k) && IsNoted(h, after, k, now, touched, flag)
    ensures FlagsKept(after, k)
  {
    if touched {
      FlagsAppend(h.attempts, h.flags, h.allowed, now, flag, LimitOf(k));
    }
  }

  /** In every run each key's set is the counter of that key's own attempts, and a check is allowed only with room. */
  lemma {:induction false} ChecksAreAccounted(checks: seq<Check>, k: Key, now: int)
    requires ClockRuns(checks)
    requires checks != [] ==> checks[|checks| - 1].now <= now
    ensures CounterKept(Watch(checks, k), k, now) && FlagsKept(Watch(checks, k), k)
  {
    if checks != [] {
      var before, c := checks[..|checks| - 1], checks[|checks| - 1];
      assert before != [] ==> before[|before| - 1] == checks[|before| - 1];
      ChecksAreAccounted(before, k, c.now);
      NoteKeepsCounter(Watch(before, k), c, k);
      var touched, flag := NoteIsNoted(Watch(before, k), c, k);
      NotedKeepsFlags(Watch(before, k), Watch(checks, k), k, c.now, touched, flag);
    }
  }

  lemma {:induction false} AttemptsInOrder(checks: seq<Check>, k: Key)
    requires ClockRuns(checks)
    ensures NonDecreasing(Watch(checks, k).attempts)
    ensures forall i :: 0 <= i < |Watch(checks, k).attempts| ==>
              checks != [] && Watch(checks, k).attempts[i] <= checks[|checks| - 1].now
  {
    if checks != [] {
      AttemptsInOrder(checks[..|checks| - 1], k);
    }
  }

  /**
   With Redis working and a clock that does not run back, any 3600-second window allows a wallet at
   most 10 internal and at most 5 bank transfers, and one spelling of a Universal ID at most 3, whatever
   mix of checks is made.
   */
  lemma HourlyLimitsHold(checks: seq<Check>, k: Key, end: int)
    requires ClockRuns(checks)
    ensures InWindow(Watch(checks, k).allowed, end - VELOCITY_WINDOW_SECONDS, end)
            <= match k { case Internal(_) => 10 case Bank(_) => 5 case UidAuth(_) => 3 }
  {
    var h := Watch(checks, k);
    ChecksAreAccounted(checks, k, if checks == [] then 0 else checks[|checks| - 1].now);
    AttemptsInOrder(checks, k);
    WindowAdmitsAtMost(h.attempts, h.flags, LimitOf(k), end);
  }

  // ----- one Universal ID, many spellings

  predicate IsBlank(c: char) {
    c in {' ', '\t', '\n', '\r'}
  }

  function TrimStart(text: string): string {
    if text != "" && IsBlank(text[0]) then TrimStart(text[1..]) else text
  }

  function TrimEnd(text: string): string {
    if text != "" && IsBlank(text[|text| - 1]) then TrimEnd(text[..|text| - 1]) else text
  }

  function Upper(c: char): char {
    if 'a' <= c <= 'z' then 'A' + (c - 'a') else c
  }

  /** normaliseUniversalId: the ID a typed text stands for. The counter is kept under the typed text. */
  function Normalise(text: string): string {
    var trimmed := TrimEnd(TrimStart(text));
    seq(|trimmed|, i requires 0 <= i < |trimmed| => Upper(trimmed[i]))
  }

  predicate Names(c: Check, id: string) {
    c.InternalCheck? && c.uid.Some? && Normalise(c.uid.value) == id
  }

  function After(checks: seq<Check>): Redis {
    if checks == [] then Redis(map[]) else Perform(After(checks[..|checks| - 1]), checks[|checks| - 1]).0
  }

  /** The moments of the allowed checks that name an ID in any spelling. */
  function AllowedForId(checks: seq<Check>, id: string): seq<int> {
    if checks == [] then []
    else
      var before, c := checks[..|checks| - 1], checks[|checks| - 1];
      if Names(c, id) && Perform(After(before), c).1.Allowed? then AllowedForId(before, id) + [c.now]
      else AllowedForId(before, id)
  }

  lemma {:induction false} WatchFollows(checks: seq<Check>, k: Key)
    ensures Watch(checks, k).redis == After(checks)
  {
    if checks != [] {
      WatchFollows(checks[..|checks| - 1], k);
    }
  }

  /** Every check that names the ID is about its owner's wallet. */
  ghost predicate OwnedBy(checks: seq<Check>, id: string, wallet: nat) {
    forall i :: 0 <= i < |checks| && Names(checks[i], id) ==> checks[i].wallet == wallet
  }

  lemma {:induction false} IdWithinWallet(checks: seq<Check>, id: string, wallet: nat, from: int, to: int)
    requires OwnedBy(checks, id, wallet)
    ensures InWindow(AllowedForId(checks, id), from, to) <= InWindow(Watch(checks, Internal(wallet)).allowed, from, to)
  {
    if checks != [] {
      var before, c := checks[..|checks| - 1], checks[|checks| - 1];
      IdWithinWallet(before, id, wallet, from, to);
      WatchFollows(before, Internal(wallet));
      WindowAppend(AllowedForId(before, id), c.now, from, to);
      WindowAppend(Watch(before, Internal(wallet)).allowed, c.now, from, to);
    }
  }

  /** However it is spelled, an ID gets at most its wallet's 10 internal transfers in any window. */
  lemma IdLimitHolds(checks: seq<Check>, id: string, wallet: nat, end: int)
    requires ClockRuns(checks) && OwnedBy(checks, id, wallet)
    ensures InWindow(AllowedForId(checks, id), end - VELOCITY_WINDOW_SECONDS, end) <= 10
  {
    IdWithinWallet(checks, id, wallet, end - VELOCITY_WINDOW_SECONDS, end);
    HourlyLimitsHold(checks, Internal(wallet), end);
  }

  /** How many attempts a key's hour holds with one more made now. */
  function HourWith(checks: seq<Check>, k: Key, now: int): nat {
    InWindow(Watch(checks, k).attempts + [now], now - VELOCITY_WINDOW_SECONDS, now)
  }

  lemma {:induction false} CountReadIsHour(checks: seq<Check>, k: Key, now: int)
    requires ClockRuns(checks) && (checks != [] ==> checks[|checks| - 1].now <= now)
    ensures CountRead(After(checks), k, now) == HourWith(checks, k, now)
  {
    var h := Watch(checks, k);
    ChecksAreAccounted(checks, k, now);
    WatchFollows(checks, k);
    CountIsWindow(Lookup(h.redis, k), h.attempts, h.last, now);
  }

  lemma AllowedIffRoom(r: Redis, c: Check, ofWallet: nat, ofSpelling: nat)
    requires ofWallet == CountRead(r, WalletKey(c), c.now)
    requires c.InternalCheck? && c.uid.Some? ==> ofSpelling == CountRead(r, UidAuth(c.uid.value), c.now)
    ensures Perform(r, c).1.Allowed?
            <==> ofWallet <= (if c.InternalCheck? then 10 else 5)
                 && (c.InternalCheck? && c.uid.Some? ==> ofSpelling <= 3)
  {
  }

  /**
   After any run a check is allowed if and only if the hour up to it holds at most 10 (bank: 5) attempts of
   the wallet and, when it carries a typed ID, at most 3 of that spelling.
   */
  lemma {:induction false} AllowedIffHoursHaveRoom(checks: seq<Check>, c: Check)
    requires ClockRuns(checks) && (checks != [] ==> checks[|checks| - 1].now <= c.now)
    ensures Perform(After(checks), c).1.Allowed?
            <==> HourWith(checks, WalletKey(c), c.now) <= (if c.InternalCheck? then 10 else 5)
                 && (c.InternalCheck? && c.uid.Some? ==> HourWith(checks, UidAuth(c.uid.value), c.now) <= 3)
  {
    var ofWallet := HourWith(checks, WalletKey(c), c.now);
    var ofSpelling := if c.InternalCheck? && c.uid.Some? then HourWith(checks, UidAuth(c.uid.value), c.now) else 0;
    CountReadIsHour(checks, WalletKey(c), c.now);
    if c.InternalCheck? && c.uid.Some? {
      CountReadIsHour(checks, UidAuth(c.uid.value), c.now);
    }
    AllowedIffRoom(After(checks), c, ofWallet, ofSpelling);
  }

  /**
   Whether the check counts as an attempt of the key: every check of the wallet's channel does, refused ones too,
   and a typed ID's as long as the wallet's hour has room.
   */
  predicate Counts(c: Check, k: Key, walletHour: nat) {
    match k
    case Internal(wallet) => c.InternalCheck? && c.wallet == wallet
    case Bank(wallet) => c.BankCheck? && c.wallet == wallet
    case UidAuth(text) => c.InternalCheck? && c.uid == Some(text) && walletHour <= 10
  }

  function Made(checks: seq<Check>, k: Key): seq<int> {
    if checks == [] then []
    else
      var before, c := checks[..|checks| - 1], checks[|checks| - 1];
      Made(before, k) + if Counts(c, k, HourWith(before, Internal(c.wallet), c.now)) then [c.now] else []
  }

  lemma TouchesIffCounts(r: Redis, c: Check, k: Key, walletHour: nat)
    requires c.InternalCheck? ==> CountRead(r, Internal(c.wallet), c.now) == walletHour
    ensures Touches(r, c, k) <==> Counts(c, k, walletHour)
  {
  }

  /** In every run the attempts of a key are exactly the checks that count for it. */
  lemma {:induction false} AttemptsAreMade(checks: seq<Check>, k: Key)
    requires ClockRuns(checks)
    ensures Watch(checks, k).attempts == Made(checks, k)
  {
    if checks != [] {
      var before, c := checks[..|checks| - 1], checks[|checks| - 1];
      AttemptsAreMade(before, k);
      WatchFollows(before, k);
      assert before != [] ==> before[|before| - 1] == checks[|before| - 1];
      CountReadIsHour(before, Internal(c.wallet), c.now);
      TouchesIffCounts(After(before), c, k, HourWith(before, Internal(c.wallet), c.now));
      AttemptsOfNote(Watch(before, k), c, k);
    }
  }

  lemma AttemptsOfNote(h: History, c: Check, k: Key)
    ensures Note(h, c, k).attempts == h.attempts + if Touches(h.redis, c, k) then [c.now] else []
  {
  }

  /** An allowed check is flagged exactly when its amount is over 500,000 naira, and reports its wallet's hour. */
  lemma {:induction false} VerdictReports(checks: seq<Check>, c: Check)
    requires ClockRuns(checks) && (checks != [] ==> checks[|checks| - 1].now <= c.now)
    requires Perform(After(checks), c).1.Allowed?
    ensures var verdict := Perform(After(checks), c).1;
            && (verdict.flagged <==> c.amount > 500_000 * 100)
            && verdict.velocityCount == HourWith(checks, if c.InternalCheck? then Internal(c.wallet) else Bank(c.wallet), c.now)
  {
    CountReadIsHour(checks, WalletKey(c), c.now);
  }

  /** While Redis fails every check is allowed, reports no attempts, and leaves nothing behind. */
  lemma FailureAllowsAll(r: Redis, wallet: nat, amount: int, uid: Option<string>, now: int)
    ensures CheckInternal(r, wallet, amount, uid, now, false) == (r, Allowed(amount > 500_000 * 100, 0))
    ensures CheckBank(r, wallet, amount, now, false) == (r, Allowed(amount > 500_000 * 100, 0))
  {
  }

  /** Every check that names the ID types it the same way. */
  ghost predicate TypedAs(checks: seq<Check>, id: string, text: string) {
    Normalise(text) == id
    && forall i :: 0 <= i < |checks| && Names(checks[i], id) ==> checks[i].uid == Some(text)
  }

  lemma {:induction false} OneSpellingIsTheId(checks: seq<Check>, id: string, text: string)
    requires TypedAs(checks, id, text)
    ensures AllowedForId(checks, id) == Watch(checks, UidAuth(text)).allowed
  {
    if checks != [] {
      OneSpellingIsTheId(checks[..|checks| - 1], id, text);
      WatchFollows(checks[..|checks| - 1], UidAuth(text));
    }
  }

  /** As long as an ID is always typed the same way it gets at most 3 internal transfers in any window. */
  lemma {:induction false} OneSpellingLimitHolds(checks: seq<Check>, id: string, text: string, end: int)
    requires ClockRuns(checks) && TypedAs(checks, id, text)
    ensures InWindow(AllowedForId(checks, id), end - VELOCITY_WINDOW_SECONDS, end) <= 3
  {
    OneSpellingIsTheId(checks, id, text);
    HourlyLimitsHold(checks, UidAuth(text), end);
  }

  /** The ID typed with n blanks before it. */
  function Spelling(n: nat): string {
    seq(n, _ => ' ') + "ABLE-XY-1234"
  }

  function Spelled(n: nat): Check {
    InternalCheck(0, 1, Some(Spelling(n)), 0)
  }

  function Spellings(n: nat): seq<Check> {
    seq(n, i requires 0 <= i => Spelled(i))
  }

  function Zeros(n: nat): seq<int> {
    seq(n, _ => 0)
  }

  lemma {:induction false} SpellingStandsForId(n: nat)
    ensures TrimStart(Spelling(n)) == "ABLE-XY-1234"
    ensures Normalise(Spelling(n)) == "ABLE-XY-1234"
  {
    if n > 0 {
      assert Spelling(n)[1..] == Spelling(n - 1);
      SpellingStandsForId(n - 1);
    } else {
      assert Spelling(0) == "ABLE-XY-1234";
    }
  }

  lemma {:induction false} PruneZeros(n: nat)
    ensures Prune(Zeros(n), 0 - VELOCITY_WINDOW_SECONDS) == Zeros(n)
    ensures InWindow(Zeros(n), 0 - VELOCITY_WINDOW_SECONDS, 0) == n
  {
    if n > 0 {
      PruneZeros(n - 1);
      assert Zeros(n)[..n - 1] == Zeros(n - 1);
      assert Zeros(n) == Zeros(n - 1) + [0];
    }
  }

  /** After n spellings the wallet's counter holds n attempts and no later spelling has a counter. */
  ghost predicate SpelledSoFar(r: Redis, n: nat) {
    && Lookup(r, Internal(0)) == (if n == 0 then None else Some(ZSet(Zeros(n), 3660)))
    && forall m :: m >= n ==> UidAuth(Spelling(m)) !in r.sets
  }

  lemma SpelledStep(r: Redis, n: nat)
    requires SpelledSoFar(r, n) && n < 10
    ensures Perform(r, Spelled(n)).1.Allowed?
    ensures SpelledSoFar(Perform(r, Spelled(n)).0, n + 1)
  {
    PruneZeros(n);
    assert Zeros(n) + [0] == Zeros(n + 1);
    assert Prune([], 0 - VELOCITY_WINDOW_SECONDS) == [];
    forall m | m >= n + 1 ensures UidAuth(Spelling(m)) != UidAuth(Spelling(n)) {
      assert |Spelling(m)| != |Spelling(n)|;
    }
  }

  lemma {:induction false} SpellingsSoFar(n: nat)
    requires n <= 10
    ensures SpelledSoFar(After(Spellings(n)), n)
  {
    if n > 0 {
      SpellingsSoFar(n - 1);
      assert Spellings(n)[..n - 1] == Spellings(n - 1) && Spellings(n)[n - 1] == Spelled(n - 1);
      SpelledStep(After(Spellings(n - 1)), n - 1);
    }
  }

  lemma AllowedForIdAppend(before: seq<Check>, c: Check, id: string)
    requires Names(c, id) && Perform(After(before), c).1.Allowed?
    ensures AllowedForId(before + [c], id) == AllowedForId(before, id) + [c.now]
  {
    assert (before + [c])[..|before|] == before;
  }

  lemma SpellingAllowed(n: nat)
    requires n < 10
    ensures AllowedForId(Spellings(n + 1), "ABLE-XY-1234") == AllowedForId(Spellings(n), "ABLE-XY-1234") + [0]
  {
    assert Spellings(n + 1) == Spellings(n) + [Spelled(n)];
    SpellingsSoFar(n);
    SpelledStep(After(Spellings(n)), n);
    SpellingStandsForId(n);
    AllowedForIdAppend(Spellings(n), Spelled(n), "ABLE-XY-1234");
  }

  /** The bound is reached, and 3 is passed: ten spellings of one ID, one transfer each, are all allowed in one second. */
  lemma {:induction false} SpellingsReachTen(n: nat)
    requires n <= 10
    ensures InWindow(AllowedForId(Spellings(n), "ABLE-XY-1234"), 0 - VELOCITY_WINDOW_SECONDS, 0) == n
  {
    if n > 0 {
      SpellingsReachTen(n - 1);
      SpellingAllowed(n - 1);
      WindowAppend(AllowedForId(Spellings(n - 1), "ABLE-XY-1234"), 0, 0 - VELOCITY_WINDOW_SECONDS, 0);
    }
  }

  /** The checks over the mutable Redis store. */
  class FraudService {
    var sets: map<Key, ZSet>

    ghost function Store(): Redis
      reads this
    {
      Redis(sets)
    }

    constructor ()
      ensures Store() == Redis(map[])
    {
      sets := map[];
    }

    method IncrementVelocity(k: Key, now: int, up: bool) returns (count: nat)
      modifies this
      ensures (Store(), count) == Bump(old(Store()), k, now, up)
    {
      if !up {
        return 0;
      }
      var windowStart := now - VELOCITY_WINDOW_SECONDS;
      var scores := if k in sets && now < sets[k].expiresAt then sets[k].scores else [];
      scores := Prune(scores, windowStart);
      scores := scores + [now];
      count := |scores|;
      sets := sets[k := ZSet(scores, now + (VELOCITY_WINDOW_SECONDS + 60))];
    }

    method CheckInternalTransferFraud(wallet: nat, amount: int, uid: Option<string>, now: int, up: bool)
      returns (v: Verdict)
      modifies this
      ensures (Store(), v) == CheckInternal(old(Store()), wallet, amount, uid, now, up)
    {
      var blocked, flagged := false, false;
      var velocityCount := IncrementVelocity(Internal(wallet), now, up);
      if velocityCount > MAX_INTERNAL_PER_HOUR {
        blocked := true;
      }
      if !blocked && uid.Some? {
        var uidVelocityCount := IncrementVelocity(UidAuth(uid.value), now, up);
        if uidVelocityCount > MAX_UID_AUTH_PER_HOUR {
          blocked := true;
        }
      }
      if !blocked && amount > LARGE_TRANSFER_THRESHOLD_KOBO {
        flagged := true;
      }
      v := if blocked then Blocked else Allowed(flagged, velocityCount);
    }

    method CheckBankTransferFraud(wallet: nat, amount: int, now: int, up: bool) returns (v: Verdict)
      modifies this
      ensures (Store(), v) == CheckBank(old(Store()), wallet, amount, now, up)
    {
      var velocityCount := IncrementVelocity(Bank(wallet), now, up);
      if velocityCount > MAX_BANK_PER_HOUR {
        return Blocked;
      }
      v := Allowed(amount > LARGE_TRANSFER_THRESHOLD_KOBO, velocityCount);
    }
  }
}
