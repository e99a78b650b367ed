/** Universal IDs: how they are generated, issued at registration, and replaced by revocation. */
module UniversalId {
  import opened Common

  const MAX_ATTEMPTS := 5
  const COOLDOWN_MS := 24 * 60 * 60 * 1000

  // ----- the text of an ID

  predicate IsCapital(c: char) {
    'A' <= c <= 'Z'
  }

  predicate IsDigit(c: char) {
    '0' <= c <= '9'
  }

  predicate AllCapitals(s: string) {
    forall i :: 0 <= i < |s| ==> IsCapital(s[i])
  }

  predicate AllDigits(s: string) {
    forall i :: 0 <= i < |s| ==> IsDigit(s[i])
  }

  /** One random draw. Every word of the list is four to six capitals. */
  datatype Draw = Draw(word: string, l1: char, l2: char, number: nat)

  predicate ValidDraw(d: Draw) {
    4 <= |d.word| <= 6 && AllCapitals(d.word) && IsCapital(d.l1) && IsCapital(d.l2) && d.number < 10000
  }

  function Digit(n: nat): (c: char)
    requires n < 10
    ensures IsDigit(c)
  {
    '0' + n as char
  }

  function Pad4(n: nat): (s: string)
    requires n < 10000
    ensures |s| == 4 && AllDigits(s)
  {
    [Digit(n / 1000), Digit(n / 100 % 10), Digit(n / 10 % 10), Digit(n % 10)]
  }

  function Candidate(d: Draw): string
    requires ValidDraw(d)
  {
    d.word + "-" + [d.l1, d.l2] + "-" + Pad4(d.number)
  }

  /** isValidUniversalId on input that is already trimmed and upper-cased: the pattern ^[A-Z]{4,6}-[A-Z]{2}-\d{4}$. */
  predicate IsValid(s: string) {
    exists w :: 4 <= w <= 6 && IsValidWithWord(s, w)
  }

  predicate IsValidWithWord(s: string, w: nat) {
    && |s| == w + 8
    && AllCapitals(s[..w]) && s[w] == '-'
    && AllCapitals(s[w + 1..w + 3]) && s[w + 3] == '-'
    && AllDigits(s[w + 4..])
  }

  function NumberOf(s: string): nat
    requires |s| == 4 && AllDigits(s)
  {
    (s[0] - '0') as nat * 1000 + (s[1] - '0') as nat * 100 + (s[2] - '0') as nat * 10 + (s[3] - '0') as nat
  }

  lemma PadRoundTrip(n: nat)
    requires n < 10000
    ensures NumberOf(Pad4(n)) == n
  {
    var a, b, c, d := n / 1000, n / 100 % 10, n / 10 % 10, n % 10;
    assert n / 10 == (n / 100) * 10 + c && n / 100 == a * 10 + b;
  }

  lemma DigitsOf(a: nat, b: nat, c: nat, d: nat)
    requires a < 10 && b < 10 && c < 10 && d < 10
    ensures var n := a * 1000 + b * 100 + c * 10 + d;
            n < 10000 && n / 1000 == a && n / 100 % 10 == b && n / 10 % 10 == c && n % 10 == d
  {
    var n := a * 1000 + b * 100 + c * 10 + d;
    assert n / 10 == a * 100 + b * 10 + c;
    assert n / 100 == a * 10 + b;
  }

  lemma DigitRoundTrip(c: char)
    requires IsDigit(c)
    ensures (c - '0') as nat < 10 && Digit((c - '0') as nat) == c
  {
  }

  lemma PadOfNumber(s: string)
    requires |s| == 4 && AllDigits(s)
    ensures NumberOf(s) < 10000 && Pad4(NumberOf(s)) == s
  {
    forall i | 0 <= i < 4 ensures (s[i] - '0') as nat < 10 && Digit((s[i] - '0') as nat) == s[i] {
      DigitRoundTrip(s[i]);
    }
    DigitsOf((s[0] - '0') as nat, (s[1] - '0') as nat, (s[2] - '0') as nat, (s[3] - '0') as nat);
    assert s == [s[0], s[1], s[2], s[3]];
  }

  /** The draw a valid text comes from. */
  lemma DrawOf(s: string, w: nat) returns (d: Draw)
    requires 4 <= w <= 6 && IsValidWithWord(s, w)
    ensures ValidDraw(d) && Candidate(d) == s
  {
    var word, letters, digits := s[..w], s[w + 1..w + 3], s[w + 4..];
    assert |digits| == 4 && AllDigits(digits);
    assert |letters| == 2 && AllCapitals(letters);
    PadOfNumber(digits);
    d := Draw(word, letters[0], letters[1], NumberOf(digits));
    assert letters == [d.l1, d.l2];
    assert s == word + "-" + letters + "-" + digits;
  }

  /** The valid texts are exactly the candidates: each draw gives one, and each is given by one draw. */
  lemma ValidIffCandidate(s: string)
    ensures IsValid(s) <==> exists d: Draw :: ValidDraw(d) && Candidate(d) == s
  {
    if IsValid(s) {
      var w :| 4 <= w <= 6 && IsValidWithWord(s, w);
      var _ := DrawOf(s, w);
    }
    forall d: Draw | ValidDraw(d) && Candidate(d) == s ensures IsValid(s) {
      CandidateParts(d);
      assert IsValidWithWord(s, |d.word|);
    }
  }

  lemma CandidateParts(d: Draw)
    requires ValidDraw(d)
    ensures var s, w := Candidate(d), |d.word|;
            && |s| == w + 8 && s[..w] == d.word && s[w] == '-' && s[w + 1..w + 3] == [d.l1, d.l2]
            && s[w + 3] == '-' && s[w + 4..] == Pad4(d.number)
  {
  }

  lemma CandidateIsInjective(d: Draw, e: Draw)
    requires ValidDraw(d) && ValidDraw(e) && Candidate(d) == Candidate(e)
    ensures d == e
  {
    CandidateParts(d);
    CandidateParts(e);
    PadRoundTrip(d.number);
    PadRoundTrip(e.number);
    var s := Candidate(d);
    assert s[|d.word| + 1] == d.l1 && s[|e.word| + 1] == e.l1;
    assert [d.l1, d.l2] == [e.l1, e.l2];
  }

  /** The text a pending user carries until registration completes. */
  function Placeholder(rest: string): string {
    "PENDING-" + rest
  }

  lemma PlaceholderIsNoCandidate(rest: string, d: Draw)
    requires ValidDraw(d)
    ensures Placeholder(rest) != Candidate(d)
  {
    CandidateParts(d);
    assert Placeholder(rest)[..7] == "PENDING";
    assert Placeholder(rest)[|d.word|] == "PENDING"[|d.word|];
  }

  // ----- the retry loop

  /** The first of the draws whose ID is not taken. */
  function FirstFree(draws: seq<Draw>, taken: set<string>): Option<string>
    requires forall i :: 0 <= i < |draws| ==> ValidDraw(draws[i])
  {
    if draws == [] then None
    else if Candidate(draws[0]) !in taken then Some(Candidate(draws[0]))
    else FirstFree(draws[1..], taken)
  }

  /** Which draw is chosen: the first free one, if any is free. */
  lemma {:induction false} FirstFreeAt(draws: seq<Draw>, taken: set<string>) returns (at: nat)
    requires forall i :: 0 <= i < |draws| ==> ValidDraw(draws[i])
    ensures at <= |draws| && forall j :: 0 <= j < at ==> Candidate(draws[j]) in taken
    ensures at < |draws| ==> Candidate(draws[at]) !in taken && FirstFree(draws, taken) == Some(Candidate(draws[at]))
    ensures at == |draws| ==> FirstFree(draws, taken) == None
  {
    if draws == [] || Candidate(draws[0]) !in taken {
      at := 0;
    } else {
      var rest := draws[1..];
      var found := FirstFreeAt(rest, taken);
      at := found + 1;
      forall j | 0 <= j < at ensures Candidate(draws[j]) in taken {
        if j > 0 {
          assert draws[j] == rest[j - 1];
        }
      }
    }
  }

  /** At most five draws, as many as are needed. */
  method GenerateUniversalId(draws: seq<Draw>, taken: set<string>) returns (id: Option<string>, tries: nat)
    requires |draws| == MAX_ATTEMPTS && forall i :: 0 <= i < |draws| ==> ValidDraw(draws[i])
    ensures id == FirstFree(draws, taken)
    ensures 1 <= tries <= MAX_ATTEMPTS
    ensures id.Some? ==> id.value == Candidate(draws[tries - 1]) && id.value !in taken && IsValid(id.value)
    ensures id.None? ==> tries == MAX_ATTEMPTS
    ensures forall i :: 0 <= i < tries ==> Candidate(draws[i]) in taken || (id.Some? && i == tries - 1)
  {
    tries := 0;
    while tries < MAX_ATTEMPTS
      invariant tries <= MAX_ATTEMPTS
      invariant forall i :: 0 <= i < tries ==> Candidate(draws[i]) in taken
      invariant FirstFree(draws[tries..], taken) == FirstFree(draws, taken)
    {
      var candidate := Candidate(draws[tries]);
      tries := tries + 1;
      assert draws[tries - 1..][1..] == draws[tries..];
      if candidate !in taken {
        ValidIffCandidate(candidate);
        return Some(candidate), tries;
      }
    }
    return None, tries;
  }

  // ----- users and history

  datatype RegistrationStep = OtpPending | OtpVerified | Active
  datatype User = User(universalId: string, step: RegistrationStep, passcode: Option<string>, revokedAt: Option<int>)
  datatype Retired = Retired(user: nat, universalId: string, at: int)

  /** `issued` is history: every ID handed out, in order. */
  datatype State = State(users: seq<User>, history: seq<Retired>, issued: seq<string>)

  const EMPTY: State := State([], [], [])

  function ActiveIds(s: State): set<string> {
    set i | 0 <= i < |s.users| :: s.users[i].universalId
  }

  function HistoryIds(s: State): set<string> {
    set i | 0 <= i < |s.history| :: s.history[i].universalId
  }

  /** What the existence check looks up. */
  function Taken(s: State): set<string> {
    ActiveIds(s) + HistoryIds(s)
  }

  datatype Event =
    | Register(suffix: string)
    | VerifyOtp(user: nat, accepted: bool)
    | Complete(user: nat, usernameFree: bool, code: string, draws: seq<Draw>)
    | SetPasscode(user: nat, code: string)
    | Revoke(user: nat, code: string, draws: seq<Draw>, now: int)

  predicate ValidEvent(e: Event) {
    (e.Complete? || e.Revoke?) ==>
      |e.draws| == MAX_ATTEMPTS && forall i :: 0 <= i < |e.draws| ==> ValidDraw(e.draws[i])
  }

  function CanRevoke(lastRevokedAt: Option<int>, now: int): bool {
    lastRevokedAt.None? || now - lastRevokedAt.value >= COOLDOWN_MS
  }

  function NextRevocationAllowedAt(lastRevokedAt: int): int {
    lastRevokedAt + COOLDOWN_MS
  }

  datatype Reply = Fine | NotFound | Conflict | InvalidCredentials | RateLimited | Exhausted | Issued(id: string)

  function CompleteRegistration(s: State, e: Event): (State, Reply)
    requires e.Complete? && ValidEvent(e)
  {
    if e.user >= |s.users| then (s, NotFound)
    else if s.users[e.user].step != OtpVerified || !e.usernameFree then (s, Conflict)
    else
      var id := FirstFree(e.draws, Taken(s));
      if id.None? then (s, Exhausted)
      else
        var u := s.users[e.user].(universalId := id.value, step := Active, passcode := Some(e.code));
        (s.(users := s.users[e.user := u], issued := s.issued + [id.value]), Issued(id.value))
  }

  /** The rows of a revocation: the user's old ID retires and a fresh one takes its place. */
  function Reissued(s: State, user: nat, id: string, now: int): State
    requires user < |s.users|
  {
    State(s.users[user := s.users[user].(universalId := id, revokedAt := Some(now))],
          s.history + [Retired(user, s.users[user].universalId, now)], s.issued + [id])
  }

  function RevokeUniversalId(s: State, e: Event): (State, Reply)
    requires e.Revoke? && ValidEvent(e)
  {
    if e.user >= |s.users| then (s, NotFound)
    else
      var u := s.users[e.user];
      if u.passcode != Some(e.code) then (s, InvalidCredentials)
      else if !CanRevoke(u.revokedAt, e.now) then (s, RateLimited)
      else
        var id := FirstFree(e.draws, Taken(s));
        if id.None? then (s, Exhausted)
        else if u.universalId in HistoryIds(s) then (s, Conflict)
        else (Reissued(s, e.user, id.value, e.now), Issued(id.value))
  }

  function Handle(s: State, e: Event): (State, Reply)
    requires ValidEvent(e)
  {
    match e
    case Register(suffix) =>
      if Placeholder(suffix) in ActiveIds(s) then (s, Conflict)
      else (s.(users := s.users + [User(Placeholder(suffix), OtpPending, None, None)]), Fine)
    case VerifyOtp(user, accepted) =>
      if user >= |s.users| then (s, NotFound)
      else if s.users[user].step != OtpPending then (s, Conflict)
      else if !accepted then (s, InvalidCredentials)
      else (s.(users := s.users[user := s.users[user].(step := OtpVerified)]), Fine)
    case Complete(_, _, _, _) => CompleteRegistration(s, e)
    case SetPasscode(user, code) =>
      if user >= |s.users| || s.users[user].passcode.None? then (s, NotFound)
      else (s.(users := s.users[user := s.users[user].(passcode := Some(code))]), Fine)
    case Revoke(_, _, _, _) => RevokeUniversalId(s, e)
  }

  ghost predicate ValidEvents(events: seq<Event>) {
    forall i :: 0 <= i < |events| ==> ValidEvent(events[i])
  }

  function Run(events: seq<Event>): State
    requires ValidEvents(events)
  {
    if events == [] then EMPTY else Handle(Run(events[..|events| - 1]), events[|events| - 1]).0
  }

  // ----- an issued ID is never issued again

  /** The active IDs are distinct, the retired ones are distinct, and no ID is both. */
  ghost predicate IdsApart(s: State) {
    && (forall i, j :: 0 <= i < j < |s.users| ==> s.users[i].universalId != s.users[j].universalId)
    && (forall i, j :: 0 <= i < j < |s.history| ==> s.history[i].universalId != s.history[j].universalId)
    && (forall i, j :: 0 <= i < |s.users| && 0 <= j < |s.history| ==>
          s.users[i].universalId != s.history[j].universalId)
  }

  /** Every issued ID is still known, the retired ones and the active users' were issued, and pending users hold placeholders. */
  ghost predicate IdsAccounted(s: State) {
    && (forall i :: 0 <= i < |s.issued| ==> s.issued[i] in Taken(s) && IsCandidate(s.issued[i]))
    && (forall i :: 0 <= i < |s.history| ==> IsCandidate(s.history[i].universalId))
    && (forall i :: 0 <= i < |s.users| && s.users[i].step == Active ==> IsCandidate(s.users[i].universalId))
    && (forall i :: 0 <= i < |s.users| && s.users[i].step != Active ==>
          s.users[i].passcode.None? && IsPlaceholder(s.users[i].universalId))
  }

  ghost predicate IsCandidate(s: string) {
    exists d: Draw :: ValidDraw(d) && Candidate(d) == s
  }

  ghost predicate IsPlaceholder(s: string) {
    exists rest :: s == Placeholder(rest)
  }

  ghost predicate AllDistinct(ids: seq<string>) {
    forall i, j :: 0 <= i < j < |ids| ==> ids[i] != ids[j]
  }

  ghost predicate Sound(s: State) {
    IdsApart(s) && IdsAccounted(s) && AllDistinct(s.issued)
  }

  /** Replacing one user's ID by `id` and perhaps retiring the old one keeps every candidate in `ids` known. */
  lemma ReplaceKeepsKnown(s: State, after: State, user: nat, known: string)
    requires user < |s.users| && |after.users| == |s.users|
    requires forall i :: 0 <= i < |s.users| && i != user ==> after.users[i].universalId == s.users[i].universalId
    requires s.history <= after.history
    requires known != s.users[user].universalId || known in HistoryIds(after)
    requires known in Taken(s)
    ensures known in Taken(after)
  {
    if known in HistoryIds(s) {
      var j :| 0 <= j < |s.history| && s.history[j].universalId == known;
      assert after.history[j].universalId == known;
    } else {
      var i :| 0 <= i < |s.users| && s.users[i].universalId == known;
      assert i != user ==> after.users[i].universalId == known;
    }
  }

  lemma NewIdIsFresh(s: State, draws: seq<Draw>)
    requires forall i :: 0 <= i < |draws| ==> ValidDraw(draws[i])
    requires FirstFree(draws, Taken(s)).Some?
    ensures var id := FirstFree(draws, Taken(s)).value;
            id !in Taken(s) && IsCandidate(id)
  {
    var _ := FirstFreeAt(draws, Taken(s));
  }

  lemma NotTaken(s: State, id: string)
    requires id !in Taken(s)
    ensures forall i :: 0 <= i < |s.users| ==> s.users[i].universalId != id
    ensures forall j :: 0 <= j < |s.history| ==> s.history[j].universalId != id
  {
    forall i | 0 <= i < |s.users| ensures s.users[i].universalId != id {
      assert s.users[i].universalId in ActiveIds(s);
    }
    forall j | 0 <= j < |s.history| ensures s.history[j].universalId != id {
      assert s.history[j].universalId in HistoryIds(s);
    }
  }

  lemma KindsDiffer(a: string, b: string)
    requires IsPlaceholder(a) && IsCandidate(b)
    ensures a != b
  {
    var rest :| a == Placeholder(rest);
    var d: Draw :| ValidDraw(d) && Candidate(d) == b;
    PlaceholderIsNoCandidate(rest, d);
  }

  lemma CompleteKeepsSound(s: State, e: Event)
    requires e.Complete? && ValidEvent(e) && Sound(s)
    ensures Sound(CompleteRegistration(s, e).0)
  {
    var (after, reply) := CompleteRegistration(s, e);
    if reply.Issued? {
      NewIdIsFresh(s, e.draws);
      NotTaken(s, reply.id);
      assert after.users[e.user].universalId in ActiveIds(after);
      forall i | 0 <= i < |s.issued| ensures s.issued[i] in Taken(after) {
        KindsDiffer(s.users[e.user].universalId, s.issued[i]);
        ReplaceKeepsKnown(s, after, e.user, s.issued[i]);
      }
      IssuedStayDistinct(s, reply.id);
    }
  }

  lemma ReissuedApart(s: State, user: nat, id: string, now: int)
    requires IdsApart(s) && user < |s.users| && id !in Taken(s)
    ensures IdsApart(Reissued(s, user, id, now))
  {
    NotTaken(s, id);
  }

  lemma ReissuedAccounted(s: State, user: nat, id: string, now: int)
    requires IdsAccounted(s) && user < |s.users| && s.users[user].step == Active && IsCandidate(id)
    ensures IdsAccounted(Reissued(s, user, id, now))
  {
    var after := Reissued(s, user, id, now);
    assert after.users[user].universalId == id && id in ActiveIds(after);
    assert after.history[|s.history|].universalId == s.users[user].universalId;
    forall i | 0 <= i < |s.issued| ensures s.issued[i] in Taken(after) {
      ReplaceKeepsKnown(s, after, user, s.issued[i]);
    }
  }

  lemma IssuedStayDistinct(s: State, id: string)
    requires IdsAccounted(s) && AllDistinct(s.issued) && id !in Taken(s)
    ensures AllDistinct(s.issued + [id])
  {
  }

  lemma RevokeKeepsSound(s: State, e: Event)
    requires e.Revoke? && ValidEvent(e) && Sound(s)
    ensures Sound(RevokeUniversalId(s, e).0)
  {
    var reply := RevokeUniversalId(s, e).1;
    if reply.Issued? {
      NewIdIsFresh(s, e.draws);
      ReissuedApart(s, e.user, reply.id, e.now);
      ReissuedAccounted(s, e.user, reply.id, e.now);
      IssuedStayDistinct(s, reply.id);
    }
  }

  lemma RegisterKeepsSound(s: State, suffix: string)
    requires Sound(s)
    ensures Sound(Handle(s, Register(suffix)).0)
  {
    var after := Handle(s, Register(suffix)).0;
    if Placeholder(suffix) !in ActiveIds(s) {
      assert IsPlaceholder(Placeholder(suffix));
      forall i | 0 <= i < |s.users| ensures s.users[i].universalId != Placeholder(suffix) {
        assert s.users[i].universalId in ActiveIds(s);
      }
      forall j | 0 <= j < |s.history| ensures s.history[j].universalId != Placeholder(suffix) {
        KindsDiffer(Placeholder(suffix), s.history[j].universalId);
      }
      forall i | 0 <= i < |s.issued| ensures s.issued[i] in Taken(after) {
        if s.issued[i] in ActiveIds(s) {
          var k :| 0 <= k < |s.users| && s.users[k].universalId == s.issued[i];
          assert after.users[k].universalId == s.issued[i];
        }
      }
    }
  }

  lemma SameIdsKeepSound(s: State, after: State)
    requires Sound(s) && |after.users| == |s.users| && after.history == s.history && after.issued == s.issued
    requires forall i :: 0 <= i < |s.users| ==>
               && after.users[i].universalId == s.users[i].universalId
               && (after.users[i].step == Active <==> s.users[i].step == Active)
               && (after.users[i].passcode.None? <==> s.users[i].passcode.None?)
    ensures Sound(after)
  {
    assert ActiveIds(after) == ActiveIds(s);
  }

  lemma EventKeepsSound(s: State, e: Event)
    requires ValidEvent(e) && Sound(s)
    ensures Sound(Handle(s, e).0)
  {
    match e
    case Register(suffix) => RegisterKeepsSound(s, suffix);
    case VerifyOtp(_, _) => SameIdsKeepSound(s, Handle(s, e).0);
    case Complete(_, _, _, _) => CompleteKeepsSound(s, e);
    case SetPasscode(_, _) => SameIdsKeepSound(s, Handle(s, e).0);
    case Revoke(_, _, _, _) => RevokeKeepsSound(s, e);
  }

  /**
   Over any registrations, passcode changes and revocations: active IDs are distinct, retired IDs are
   distinct, no ID is both, and the IDs handed out over the whole run never repeat.
   */
  lemma {:induction false} IdsAreNeverReissued(events: seq<Event>)
    requires ValidEvents(events)
    ensures Sound(Run(events))
  {
    if events != [] {
      IdsAreNeverReissued(events[..|events| - 1]);
      EventKeepsSound(Run(events[..|events| - 1]), events[|events| - 1]);
    }
  }

  // ----- the cooldown

  /** Each user's revocations are at least a day apart, and the row remembers the last one. */
  ghost predicate RevocationsSpaced(s: State) {
    && (forall i, j :: 0 <= i < j < |s.history| && s.history[i].user == s.history[j].user ==>
          s.history[j].at - s.history[i].at >= COOLDOWN_MS)
    && (forall i :: 0 <= i < |s.history| ==>
          && s.history[i].user < |s.users|
          && s.users[s.history[i].user].revokedAt.Some?
          && s.history[i].at <= s.users[s.history[i].user].revokedAt.value)
  }

  lemma EventKeepsSpacing(s: State, e: Event)
    requires ValidEvent(e) && RevocationsSpaced(s)
    ensures RevocationsSpaced(Handle(s, e).0)
  {
  }

  lemma {:induction false} RevocationsAreADayApart(events: seq<Event>)
    requires ValidEvents(events)
    ensures RevocationsSpaced(Run(events))
  {
    if events != [] {
      RevocationsAreADayApart(events[..|events| - 1]);
      EventKeepsSpacing(Run(events[..|events| - 1]), events[|events| - 1]);
    }
  }

  /**
   In a reachable state a revocation goes through exactly when the passcode matches, the announced
   moment has come and one of the five draws is free.
   */
  lemma RevokedIff(events: seq<Event>, e: Event)
    requires ValidEvents(events) && e.Revoke? && ValidEvent(e) && e.user < |Run(events).users|
    ensures var s, u := Run(events), Run(events).users[e.user];
            RevokeUniversalId(s, e).1.Issued? <==>
              && u.passcode == Some(e.code)
              && (u.revokedAt.Some? ==> e.now >= NextRevocationAllowedAt(u.revokedAt.value))
              && exists i :: 0 <= i < MAX_ATTEMPTS && Candidate(e.draws[i]) !in Taken(s)
  {
    var s := Run(events);
    IdsAreNeverReissued(events);
    var _ := FirstFreeAt(e.draws, Taken(s));
    assert s.users[e.user].universalId !in HistoryIds(s);
  }

  // ----- what a user's row says of the run

  /** What has happened to one user, told from the events and the IDs they were answered with. */
  datatype Story = Story(verified: bool, id: Option<string>, code: Option<string>, revokedAt: Option<int>)

  function Retold(told: Story, s: State, e: Event, user: nat): Story
    requires ValidEvent(e)
  {
    var reply := Handle(s, e).1;
    match e
    case Register(_) => told
    case VerifyOtp(u, accepted) => if u == user && accepted && user < |s.users| then told.(verified := true) else told
    case Complete(u, _, code, _) =>
      if u == user && reply.Issued? then told.(id := Some(reply.id), code := Some(code)) else told
    case SetPasscode(u, code) => if u == user && told.code.Some? then told.(code := Some(code)) else told
    case Revoke(u, _, _, now) =>
      if u == user && reply.Issued? then told.(id := Some(reply.id), revokedAt := Some(now)) else told
  }

  function Told(events: seq<Event>, user: nat): Story
    requires ValidEvents(events)
  {
    if events == [] then Story(false, None, None, None)
    else
      var before := events[..|events| - 1];
      Retold(Told(before, user), Run(before), events[|events| - 1], user)
  }

  /** The row is active from its first ID on, which it gets after an accepted one-time password. */
  predicate RowTells(u: User, told: Story) {
    && (u.step == OtpPending <==> !told.verified)
    && (u.step == Active <==> told.id.Some?)
    && (told.id.Some? ==> told.verified && u.universalId == told.id.value)
    && u.passcode == told.code && (told.code.Some? <==> told.id.Some?)
    && u.revokedAt == told.revokedAt
  }

  ghost predicate TellsNothing(told: Story) {
    told == Story(false, None, None, None)
  }

  /** The user's row tells the story, and a user without a row has none. */
  ghost predicate TellsOf(s: State, user: nat, told: Story) {
    if user < |s.users| then RowTells(s.users[user], told) else TellsNothing(told)
  }

  lemma EventIsTold(s: State, e: Event, user: nat, told: Story)
    requires ValidEvent(e) && TellsOf(s, user, told)
    ensures TellsOf(Handle(s, e).0, user, Retold(told, s, e, user))
  {
  }

  lemma {:induction false} RowsTellStories(events: seq<Event>, user: nat)
    requires ValidEvents(events)
    ensures TellsOf(Run(events), user, Told(events, user))
  {
    if events != [] {
      var before := events[..|events| - 1];
      RowsTellStories(before, user);
      EventIsTold(Run(before), events[|events| - 1], user, Told(before, user));
    }
  }

  /** The text of the first draw that is not taken. */
  ghost predicate IsFirstFree(draws: seq<Draw>, s: State, id: string)
    requires forall i :: 0 <= i < |draws| ==> ValidDraw(draws[i])
  {
    exists at :: 0 <= at < |draws| && id == Candidate(draws[at]) && !IsKnown(s, id)
                 && forall j :: 0 <= j < at ==> IsKnown(s, Candidate(draws[j]))
  }

  /** Some user has it, or had it. */
  ghost predicate IsKnown(s: State, id: string) {
    || (exists i :: 0 <= i < |s.users| && s.users[i].universalId == id)
    || (exists j :: 0 <= j < |s.history| && s.history[j].universalId == id)
  }

  ghost predicate SomeFree(draws: seq<Draw>, s: State)
    requires forall i :: 0 <= i < |draws| ==> ValidDraw(draws[i])
  {
    exists i :: 0 <= i < |draws| && !IsKnown(s, Candidate(draws[i]))
  }

  lemma TakenIsKnown(s: State, id: string)
    ensures id in Taken(s) <==> IsKnown(s, id)
  {
    if i :| 0 <= i < |s.users| && s.users[i].universalId == id {
      assert s.users[i].universalId in ActiveIds(s);
    }
    if j :| 0 <= j < |s.history| && s.history[j].universalId == id {
      assert s.history[j].universalId in HistoryIds(s);
    }
  }

  lemma FirstFreeIs(draws: seq<Draw>, s: State)
    requires forall i :: 0 <= i < |draws| ==> ValidDraw(draws[i])
    ensures var id := FirstFree(draws, Taken(s));
            && (id.Some? ==> IsFirstFree(draws, s, id.value))
            && (id.None? ==> forall i :: 0 <= i < |draws| ==> IsKnown(s, Candidate(draws[i])))
  {
    forall i | 0 <= i < |draws| ensures Candidate(draws[i]) in Taken(s) <==> IsKnown(s, Candidate(draws[i])) {
      TakenIsKnown(s, Candidate(draws[i]));
    }
    var _ := FirstFreeAt(draws, Taken(s));
  }

  /** Everybody else's row is as it was. */
  ghost predicate OthersStay(s: State, after: State, user: nat) {
    && user < |s.users| == |after.users|
    && forall i :: 0 <= i < |s.users| && i != user ==> after.users[i] == s.users[i]
  }

  /**
   After any run a registration is completed exactly when the user's one-time password was accepted, no ID was
   issued to the user before, the username is free and so is one of the five draws. The row gets the first free
   one and the passcode; otherwise nothing changes.
   */
  lemma CompletedIff(events: seq<Event>, e: Event)
    requires ValidEvents(events) && e.Complete? && ValidEvent(e)
    ensures var s, told := Run(events), Told(events, e.user);
            var (after, reply) := Handle(s, e);
            && (reply == NotFound <==> e.user >= |s.users|)
            && (reply == Conflict <==> e.user < |s.users| && !(told.verified && told.id.None? && e.usernameFree))
            && (reply == Exhausted <==> told.verified && told.id.None? && e.usernameFree && !SomeFree(e.draws, s))
            && (reply.Issued? <==> told.verified && told.id.None? && e.usernameFree && SomeFree(e.draws, s))
            && (reply.Issued? ==>
                  && IsFirstFree(e.draws, s, reply.id) && OthersStay(s, after, e.user)
                  && after.users[e.user] == User(reply.id, Active, Some(e.code), s.users[e.user].revokedAt)
                  && after.history == s.history && after.issued == s.issued + [reply.id])
            && (!reply.Issued? ==> after == s)
  {
    FirstFreeIs(e.draws, Run(events));
    RowsTellStories(events, e.user);
  }

  /** One revocation of a user whose ID is not retired, answered by passcode, day and draws, in this order. */
  ghost predicate IsAnswered(s: State, e: Event, after: State, reply: Reply, knows: bool, early: bool)
    requires e.Revoke? && ValidEvent(e) && e.user < |s.users|
  {
    && (reply == InvalidCredentials <==> !knows)
    && (reply == RateLimited <==> knows && early)
    && (reply == Exhausted <==> knows && !early && !SomeFree(e.draws, s))
    && (reply.Issued? <==> knows && !early && SomeFree(e.draws, s))
    && (reply.Issued? ==>
          && IsFirstFree(e.draws, s, reply.id) && OthersStay(s, after, e.user)
          && after.users[e.user] == s.users[e.user].(universalId := reply.id, revokedAt := Some(e.now))
          && after.history == s.history + [Retired(e.user, s.users[e.user].universalId, e.now)]
          && after.issued == s.issued + [reply.id])
    && (!reply.Issued? ==> after == s)
  }

  lemma RevocationIsAnswered(s: State, e: Event)
    requires e.Revoke? && ValidEvent(e) && e.user < |s.users| && s.users[e.user].universalId !in HistoryIds(s)
    ensures var u, (after, reply) := s.users[e.user], RevokeUniversalId(s, e);
            IsAnswered(s, e, after, reply, u.passcode == Some(e.code),
                       u.revokedAt.Some? && e.now < u.revokedAt.value + 24 * 60 * 60 * 1000)
  {
    FirstFreeIs(e.draws, s);
  }

  /**
   After any run a revocation is answered by the passcode set last, the day since the last revocation and the
   draws, in this order. One that goes through retires the user's ID for the first free draw, and touches no
   other row; one that does not changes nothing.
   */
  lemma RevocationReplaces(events: seq<Event>, e: Event)
    requires ValidEvents(events) && e.Revoke? && ValidEvent(e)
    ensures var s, told := Run(events), Told(events, e.user);
            var (after, reply) := Handle(s, e);
            if e.user >= |s.users| then reply == NotFound && after == s
            else IsAnswered(s, e, after, reply, told.code == Some(e.code),
                            told.revokedAt.Some? && e.now < told.revokedAt.value + 24 * 60 * 60 * 1000)
  {
    var s := Run(events);
    RowsTellStories(events, e.user);
    IdsAreNeverReissued(events);
    if e.user < |s.users| {
      assert s.users[e.user].universalId !in HistoryIds(s);
      RevocationIsAnswered(s, e);
    }
  }

  /** Registering adds one pending row, unless its placeholder is in use; the other events touch one row each. */
  lemma OtherEventsAre(s: State, e: Event)
    requires e.Register? || e.VerifyOtp? || e.SetPasscode?
    ensures var (after, reply) := Handle(s, e);
            && after.history == s.history && after.issued == s.issued
            && (reply != Fine ==> after == s)
            && match e
               case Register(suffix) =>
                 var placeholder := "PENDING-" + suffix;
                 && (reply == if exists i :: 0 <= i < |s.users| && s.users[i].universalId == placeholder then Conflict else Fine)
                 && (reply == Fine ==> after.users == s.users + [User(placeholder, OtpPending, None, None)])
               case VerifyOtp(user, accepted) =>
                 && (reply == NotFound <==> user >= |s.users|)
                 && (reply == Conflict <==> user < |s.users| && s.users[user].step != OtpPending)
                 && (reply == Fine <==> user < |s.users| && s.users[user].step == OtpPending && accepted)
                 && (reply == InvalidCredentials <==> user < |s.users| && s.users[user].step == OtpPending && !accepted)
                 && (reply == Fine ==>
                       OthersStay(s, after, user) && after.users[user] == s.users[user].(step := OtpVerified))
               case SetPasscode(user, code) =>
                 && (reply == if user < |s.users| && s.users[user].passcode.Some? then Fine else NotFound)
                 && (reply == Fine ==>
                       OthersStay(s, after, user) && after.users[user] == s.users[user].(passcode := Some(code)))
               case _ => true
  {
    if e.Register? {
      forall i | 0 <= i < |s.users| ensures s.users[i].universalId in ActiveIds(s) {
      }
    }
  }

  // ----- the service

  /** The user and history tables in place. */
  class Directory {
    var users: seq<User>
    var history: seq<Retired>
    ghost var issued: seq<string>

    ghost function View(): State
      reads this
    {
      State(users, history, issued)
    }

    constructor ()
      ensures View() == EMPTY
    {
      users, history, issued := [], [], [];
    }

    method Complete(user: nat, usernameFree: bool, code: string, draws: seq<Draw>) returns (r: Reply)
      requires ValidEvent(Event.Complete(user, usernameFree, code, draws))
      modifies this
      ensures (View(), r) == CompleteRegistration(old(View()), Event.Complete(user, usernameFree, code, draws))
    {
      if user >= |users| {
        return NotFound;
      }
      if users[user].step != OtpVerified || !usernameFree {
        return Conflict;
      }
      var taken := TakenNow();
      var id, _ := GenerateUniversalId(draws, taken);
      if id.None? {
        return Exhausted;
      }
      users := users[user := users[user].(universalId := id.value, step := Active, passcode := Some(code))];
      issued := issued + [id.value];
      return Issued(id.value);
    }

    method Revoke(user: nat, code: string, draws: seq<Draw>, now: int) returns (r: Reply)
      requires ValidEvent(Event.Revoke(user, code, draws, now))
      modifies this
      ensures (View(), r) == RevokeUniversalId(old(View()), Event.Revoke(user, code, draws, now))
    {
      if user >= |users| {
        return NotFound;
      }
      var u := users[user];
      if u.passcode != Some(code) {
        return InvalidCredentials;
      }
      if !CanRevoke(u.revokedAt, now) {
        return RateLimited;
      }
      var taken := TakenNow();
      var id, _ := GenerateUniversalId(draws, taken);
      if id.None? {
        return Exhausted;
      }
      if u.universalId in HistoryIds(State(users, history, [])) {
        return Conflict;
      }
      history := history + [Retired(user, u.universalId, now)];
      users := users[user := u.(universalId := id.value, revokedAt := Some(now))];
      issued := issued + [id.value];
      return Issued(id.value);
    }

    method TakenNow() returns (taken: set<string>)
      ensures taken == Taken(View())
    {
      var s := State(users, history, []);
      taken := Taken(s);
      assert ActiveIds(s) == ActiveIds(View()) && HistoryIds(s) == HistoryIds(View());
    }
  }
}
