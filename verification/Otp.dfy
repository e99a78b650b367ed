/** One-time passwords in Redis: the code, its attempt counter and the resend counter, each with its TTL. */
module Otp {
  import opened Common

  const SECOND := 1000

  /** The settings the service reads, in seconds and counts; all positive. */
  datatype Config = Config(ttl: nat, maxAttempts: nat, resendWindow: nat, resendMax: nat)

  predicate ValidConfig(cfg: Config) {
    cfg.ttl > 0 && cfg.maxAttempts > 0 && cfg.resendWindow > 0 && cfg.resendMax > 0
  }

  /** A Redis string with its expiry; a key is gone from the moment it expires. Times are in milliseconds. */
  datatype Cell<T> = Cell(value: T, expiresAt: int)

  function Get<T>(c: Option<Cell<T>>, now: int): Option<T> {
    if c.Some? && now < c.value.expiresAt then Some(c.value.value) else None
  }

  /**
   `issue` and the counters after it are history: the number of codes generated so far, and, for
   the current one, how many wrong comparisons and acceptances it has seen.
   */
  datatype State = State(
    code: Option<Cell<string>>, attempts: Option<Cell<int>>, resends: Option<Cell<int>>,
    issue: nat, wrong: nat, accepted: nat)

  const EMPTY: State := State(None, None, None, 0, 0, 0)

  datatype Reply = Issued(code: string) | Valid | Invalid | Expired | TooManyAttempts | TooManyResends | Threw

  function CountOf(c: Option<Cell<int>>, now: int): int {
    var v := Get(c, now);
    if v.Some? then v.value else 0
  }

  /** generateOtp: the new code replaces the old one and its attempts. */
  function Generate(s: State, cfg: Config, code: string, now: int): State {
    State(Some(Cell(code, now + cfg.ttl * SECOND)), None, s.resends, s.issue + 1, 0, 0)
  }

  // ----- the comparison

  /** The length of a character in UTF-8, and in the UTF-16 units that padEnd counts. */
  function Utf8Length(c: char): nat {
    if c as int < 0x80 then 1 else if c as int < 0x800 then 2 else if c as int < 0x1_0000 then 3 else 4
  }

  function Utf16Length(c: char): nat {
    if c as int < 0x1_0000 then 1 else 2
  }

  function Utf8Bytes(text: string): nat {
    if text == "" then 0 else Utf8Bytes(text[..|text| - 1]) + Utf8Length(text[|text| - 1])
  }

  function Utf16Units(text: string): nat {
    if text == "" then 0 else Utf16Units(text[..|text| - 1]) + Utf16Length(text[|text| - 1])
  }

  /** The size of Buffer.from(text.padEnd(6, '0')). */
  function PaddedSize(text: string): nat {
    Utf8Bytes(text) + if Utf16Units(text) < 6 then 6 - Utf16Units(text) else 0
  }

  /**
   verifyOtp. A submission whose padded bytes are more or fewer than the code's makes the constant-time
   comparison throw. `ttl` is what redis.ttl says of the code, in whole seconds.
   */
  function Verify(s: State, cfg: Config, submitted: string, now: int, ttl: int): (State, Reply) {
    var count := CountOf(s.attempts, now);
    var stored := Get(s.code, now);
    if count >= cfg.maxAttempts then (s, TooManyAttempts)
    else if stored.None? || stored.value == "" then (s, Expired)
    else if PaddedSize(submitted) != PaddedSize(stored.value) then (s, Threw)
    else if stored.value == submitted then
      (s.(code := None, attempts := None, accepted := s.accepted + 1), Valid)
    else
      var remainingTtl := if ttl > 0 then ttl else cfg.ttl;
      var counted := s.(attempts := Some(Cell(count + 1, now + remainingTtl * SECOND)), wrong := s.wrong + 1);
      if cfg.maxAttempts - (count + 1) <= 0 then (counted.(code := None), TooManyAttempts)
      else (counted, Invalid)
  }

  /** resendOtp: at most resendMax within the window the first resend opens. */
  function Resend(s: State, cfg: Config, code: string, now: int): (State, Reply) {
    var count := CountOf(s.resends, now);
    if count >= cfg.resendMax then (s, TooManyResends)
    else
      var renewed := Generate(s.(code := None, attempts := None), cfg, code, now);
      if count == 0 || s.resends.None? then
        (renewed.(resends := Some(Cell(1, now + cfg.resendWindow * SECOND))), Issued(code))
      else (renewed.(resends := Some(Cell(count + 1, s.resends.value.expiresAt))), Issued(code))
  }

  datatype Event =
    | DoGenerate(code: string, now: int)
    | DoVerify(submitted: string, now: int, ttl: int)
    | DoResend(code: string, now: int)

  function Handle(s: State, cfg: Config, e: Event): (State, Reply) {
    match e
    case DoGenerate(code, now) => (Generate(s, cfg, code, now), Issued(code))
    case DoVerify(submitted, now, ttl) => Verify(s, cfg, submitted, now, ttl)
    case DoResend(code, now) => Resend(s, cfg, code, now)
  }

  function RunFrom(s: State, cfg: Config, events: seq<Event>): State {
    if events == [] then s
    else Handle(RunFrom(s, cfg, events[..|events| - 1]), cfg, events[|events| - 1]).0
  }

  function Run(cfg: Config, events: seq<Event>): State {
    RunFrom(EMPTY, cfg, events)
  }

  predicate ClockRuns(events: seq<Event>) {
    |events| < 2 || (ClockRuns(events[..|events| - 1]) && events[|events| - 2].now <= events[|events| - 1].now)
  }

  // ----- each code: one acceptance, few wrong guesses

  /** What the attempt counter was last set to. */
  function Counted(s: State): int {
    if s.attempts.Some? then s.attempts.value.value else 0
  }

  /** A wrong comparison that finds the attempts key ended: its count is lost. */
  predicate Lapses(s: State, cfg: Config, e: Event) {
    && e.DoVerify? && Handle(s, cfg, e).0.wrong > s.wrong
    && s.attempts.Some? && s.attempts.value.expiresAt <= e.now
  }

  function ForgottenAfter(s: State, cfg: Config, e: Event, forgotten: int): int {
    if Handle(s, cfg, e).1.Issued? then 0
    else if Lapses(s, cfg, e) then forgotten + Counted(s)
    else forgotten
  }

  /** The counts that have lapsed since the current code was issued. */
  function Forgotten(cfg: Config, events: seq<Event>): int {
    if events == [] then 0
    else
      var before, e := events[..|events| - 1], events[|events| - 1];
      ForgottenAfter(Run(cfg, before), cfg, e, Forgotten(cfg, before))
  }

  /** A code was issued and is gone, and not because it was accepted. */
  predicate UsedUp(s: State) {
    s.issue > 0 && s.code.None? && s.accepted == 0
  }

  /** Every wrong comparison of the current code is in the counter or forgotten. */
  predicate AllAccounted(s: State, cfg: Config, forgotten: int) {
    && forgotten >= 0 && s.accepted <= 1
    && (s.issue == 0 ==> s.code.None? && s.accepted == 0 && s.wrong == 0)
    && (s.code.Some? ==>
          && s.accepted == 0
          && 0 <= Counted(s) < cfg.maxAttempts && (s.attempts.Some? ==> Counted(s) > 0)
          && s.wrong == Counted(s) + forgotten)
    && (UsedUp(s) ==> s.wrong == cfg.maxAttempts + forgotten)
    && (s.accepted == 1 ==> s.code.None? && forgotten <= s.wrong < cfg.maxAttempts + forgotten)
  }

  lemma EventKeepsAccount(s: State, cfg: Config, e: Event, forgotten: int)
    requires ValidConfig(cfg) && AllAccounted(s, cfg, forgotten)
    ensures AllAccounted(Handle(s, cfg, e).0, cfg, ForgottenAfter(s, cfg, e, forgotten))
  {
  }

  /**
   In every run, whatever the clock does and whatever redis.ttl says: a stored code has seen the wrong
   comparisons its counter shows and the forgotten ones, and a used-up code maxAttempts and the forgotten
   ones.
   */
  lemma {:induction false} WrongIsCountedPlusForgotten(cfg: Config, events: seq<Event>)
    requires ValidConfig(cfg)
    ensures AllAccounted(Run(cfg, events), cfg, Forgotten(cfg, events))
  {
    if events != [] {
      var before, e := events[..|events| - 1], events[|events| - 1];
      WrongIsCountedPlusForgotten(cfg, before);
      EventKeepsAccount(Run(cfg, before), cfg, e, Forgotten(cfg, before));
    }
  }

  /**
   A used-up code saw more than maxAttempts wrong comparisons exactly when its counter lapsed. No other code
   sees more unless that happened.
   */
  lemma {:induction false} ExceedsIffForgotten(cfg: Config, events: seq<Event>)
    requires ValidConfig(cfg)
    ensures UsedUp(Run(cfg, events)) ==> (Run(cfg, events).wrong > cfg.maxAttempts <==> Forgotten(cfg, events) > 0)
    ensures Run(cfg, events).wrong > cfg.maxAttempts ==> Forgotten(cfg, events) > 0
  {
    WrongIsCountedPlusForgotten(cfg, events);
  }

  // ----- how much can be forgotten

  /** How long the stored code has to live. */
  function Remaining(s: State, now: int): int {
    if s.code.Some? then s.code.value.expiresAt - now else 0
  }

  /** redis.ttl speaks of a live key in whole seconds, and is less than a second off either way. */
  predicate TtlFits(s: State, e: Event) {
    e.DoVerify? && Remaining(s, e.now) > 0 ==>
      Remaining(s, e.now) - SECOND < e.ttl * SECOND < Remaining(s, e.now) + SECOND
  }

  /** Every ttl of the run was reported so. */
  predicate TtlsFit(cfg: Config, events: seq<Event>) {
    events == []
    || (TtlsFit(cfg, events[..|events| - 1]) && TtlFits(Run(cfg, events[..|events| - 1]), events[|events| - 1]))
  }

  /**
   The counter ends less than a second before its code, or later. It forgets at most once: from then on it
   outlives the code.
   */
  predicate ForgetsOnce(s: State, cfg: Config, clock: int, forgotten: int) {
    && forgotten < cfg.maxAttempts
    && (s.code.Some? && s.attempts.Some? ==>
          var ends, codeEnds := s.attempts.value.expiresAt, s.code.value.expiresAt;
          && ends > codeEnds - SECOND
          && (forgotten > 0 ==> ends >= codeEnds && clock > codeEnds - SECOND))
    && (s.code.Some? && s.attempts.None? ==> forgotten == 0)
  }

  /** What a wrong comparison of a live code does to the counter's end. */
  lemma CounterEnds(s: State, cfg: Config, e: Event)
    requires ValidConfig(cfg) && e.DoVerify? && s.code.Some? && e.now < s.code.value.expiresAt && TtlFits(s, e)
    ensures var remainingTtl := if e.ttl > 0 then e.ttl else cfg.ttl;
            var ends, codeEnds := e.now + remainingTtl * SECOND, s.code.value.expiresAt;
            ends > codeEnds - SECOND && (e.now > codeEnds - SECOND ==> ends >= codeEnds)
  {
    if e.now > s.code.value.expiresAt - SECOND && e.ttl > 0 {
      assert e.ttl == 1;
    }
  }

  lemma EventForgetsOnce(s: State, cfg: Config, e: Event, clock: int, forgotten: int)
    requires ValidConfig(cfg) && clock <= e.now && TtlFits(s, e)
    requires AllAccounted(s, cfg, forgotten) && ForgetsOnce(s, cfg, clock, forgotten)
    ensures ForgetsOnce(Handle(s, cfg, e).0, cfg, e.now, ForgottenAfter(s, cfg, e, forgotten))
  {
    if e.DoVerify? && s.code.Some? && e.now < s.code.value.expiresAt {
      CounterEnds(s, cfg, e);
    }
  }

  lemma {:induction false} RunForgetsOnce(cfg: Config, events: seq<Event>, clock: int)
    requires ValidConfig(cfg) && ClockRuns(events) && TtlsFit(cfg, events)
    requires events != [] ==> clock == events[|events| - 1].now
    ensures ForgetsOnce(Run(cfg, events), cfg, clock, Forgotten(cfg, events))
  {
    if events != [] {
      var before, e := events[..|events| - 1], events[|events| - 1];
      var last := if before == [] then e.now else before[|before| - 1].now;
      assert before != [] ==> before[|before| - 1] == events[|before| - 1];
      RunForgetsOnce(cfg, before, last);
      WrongIsCountedPlusForgotten(cfg, before);
      EventForgetsOnce(Run(cfg, before), cfg, e, last, Forgotten(cfg, before));
    }
  }

  /**
   In every run each issued code is accepted at most once and sees at most 2 * maxAttempts - 1 wrong
   comparisons.
   */
  lemma {:induction false} CodeBounds(cfg: Config, events: seq<Event>)
    requires ValidConfig(cfg) && ClockRuns(events) && TtlsFit(cfg, events)
    ensures Run(cfg, events).accepted <= 1 && Run(cfg, events).wrong <= 2 * cfg.maxAttempts - 1
  {
    WrongIsCountedPlusForgotten(cfg, events);
    RunForgetsOnce(cfg, events, if events == [] then 0 else events[|events| - 1].now);
  }

  /** No submission comes in the last second of the stored code's life. */
  predicate InGoodTime(cfg: Config, events: seq<Event>) {
    events == []
    || (var before, e := events[..|events| - 1], events[|events| - 1];
        && InGoodTime(cfg, before)
        && (e.DoVerify? && Remaining(Run(cfg, before), e.now) > 0 ==> Remaining(Run(cfg, before), e.now) >= SECOND))
  }

  lemma EventInGoodTime(s: State, cfg: Config, e: Event)
    requires ValidConfig(cfg) && TtlFits(s, e) && ForgetsOnce(s, cfg, 0, 0)
    requires e.DoVerify? && Remaining(s, e.now) > 0 ==> Remaining(s, e.now) >= SECOND
    ensures ForgottenAfter(s, cfg, e, 0) == 0 && ForgetsOnce(Handle(s, cfg, e).0, cfg, 0, 0)
  {
    if e.DoVerify? && s.code.Some? && e.now < s.code.value.expiresAt {
      CounterEnds(s, cfg, e);
    }
  }

  lemma {:induction false} GoodTimeForgetsNothing(cfg: Config, events: seq<Event>)
    requires ValidConfig(cfg) && TtlsFit(cfg, events) && InGoodTime(cfg, events)
    ensures Forgotten(cfg, events) == 0 && ForgetsOnce(Run(cfg, events), cfg, 0, 0)
  {
    if events != [] {
      GoodTimeForgetsNothing(cfg, events[..|events| - 1]);
      EventInGoodTime(Run(cfg, events[..|events| - 1]), cfg, events[|events| - 1]);
    }
  }

  /** Unless a submission comes in the last second of its life, a code sees at most maxAttempts wrong comparisons. */
  lemma {:induction false} AttemptLimitInGoodTime(cfg: Config, events: seq<Event>)
    requires ValidConfig(cfg) && TtlsFit(cfg, events) && InGoodTime(cfg, events)
    ensures Run(cfg, events).wrong <= cfg.maxAttempts
  {
    GoodTimeForgetsNothing(cfg, events);
    ExceedsIffForgotten(cfg, events);
  }

  const STRICT: Config := Config(300, 3, 1800, 3)

  lemma SixDigits(text: string)
    requires |text| == 6 && forall i :: 0 <= i < 6 ==> '0' <= text[i] <= '9'
    ensures PaddedSize(text) == 6
  {
    assert |text[..5]| == 5 && |text[..4]| == 4 && |text[..3]| == 3;
    DigitsMeasure(text);
  }

  lemma {:induction false} DigitsMeasure(text: string)
    requires forall i :: 0 <= i < |text| ==> '0' <= text[i] <= '9'
    ensures Utf8Bytes(text) == |text| && Utf16Units(text) == |text|
  {
    if text != "" {
      DigitsMeasure(text[..|text| - 1]);
    }
  }

  /** The state after some wrong guesses, with what the counter says and when it ends. */
  function Guessed(wrong: nat, counted: int, ends: int): State {
    State(Some(Cell("123456", 300000)), Some(Cell(counted, ends)), None, 1, wrong, 0)
  }

  /** A run that may go on: it ends in this state, at this moment at the latest. */
  ghost predicate EndsIn(events: seq<Event>, s: State, now: int) {
    && Run(STRICT, events) == s && TtlsFit(STRICT, events)
    && ClockRuns(events) && (events != [] ==> events[|events| - 1].now <= now)
  }

  lemma OneMore(events: seq<Event>, s: State, e: Event, now: int) returns (longer: seq<Event>)
    requires EndsIn(events, s, now) && now <= e.now && TtlFits(s, e)
    ensures EndsIn(longer, Handle(s, STRICT, e).0, e.now)
  {
    longer := events + [e];
    assert longer[..|events|] == events;
  }

  lemma OneGuess(events: seq<Event>, s: State, e: Event, now: int) returns (longer: seq<Event>)
    requires EndsIn(events, s, now) && e.DoVerify? && now <= e.now && TtlFits(s, e)
    requires |e.submitted| == 6 && forall i :: 0 <= i < 6 ==> '0' <= e.submitted[i] <= '9'
    requires e.submitted != "123456" && s.code == Some(Cell("123456", 300000)) && e.now < 300000
    requires CountOf(s.attempts, e.now) < 3
    ensures var counted := CountOf(s.attempts, e.now) + 1;
            EndsIn(longer,
                   s.(attempts := Some(Cell(counted, e.now + (if e.ttl > 0 then e.ttl else 300) * SECOND)),
                      wrong := s.wrong + 1, code := if counted == 3 then None else s.code), e.now)
  {
    SixDigits("123456");
    SixDigits(e.submitted);
    longer := OneMore(events, s, e, now);
  }

  /** A code issued at 0 for 300 seconds. */
  lemma IssuedCode() returns (events: seq<Event>)
    ensures EndsIn(events, Generate(EMPTY, STRICT, "123456", 0), 0)
  {
    events := OneMore([], EMPTY, DoGenerate("123456", 0), 0);
  }

  /** Two wrong guesses early on: the counter ends at 299.6 seconds. */
  lemma FirstGuess() returns (events: seq<Event>)
    ensures EndsIn(events, Guessed(1, 1, 299600), 600)
  {
    var issued := IssuedCode();
    events := OneGuess(issued, Generate(EMPTY, STRICT, "123456", 0), DoVerify("000000", 600, 299), 0);
  }

  lemma SecondGuess() returns (events: seq<Event>)
    ensures EndsIn(events, Guessed(2, 2, 299600), 600)
  {
    var before := FirstGuess();
    events := OneGuess(before, Guessed(1, 1, 299600), DoVerify("000001", 600, 299), 600);
  }

  /** At 299.7 seconds the counter has forgotten them, and two more are counted afresh. */
  lemma ThirdGuess() returns (events: seq<Event>)
    ensures EndsIn(events, Guessed(3, 1, 599700), 299700)
  {
    var before := SecondGuess();
    events := OneGuess(before, Guessed(2, 2, 299600), DoVerify("000002", 299700, 0), 600);
  }

  lemma FourthGuess() returns (events: seq<Event>)
    ensures EndsIn(events, Guessed(4, 2, 599700), 299700)
  {
    var before := ThirdGuess();
    events := OneGuess(before, Guessed(3, 1, 599700), DoVerify("000003", 299700, 0), 299700);
  }

  /** The bound is reached: with three attempts allowed, a fifth wrong guess is compared. */
  lemma AttemptBoundIsTight()
    ensures exists events: seq<Event> ::
              ClockRuns(events) && TtlsFit(STRICT, events) && Run(STRICT, events).wrong == 2 * STRICT.maxAttempts - 1
  {
    var late := FourthGuess();
    var all := OneGuess(late, Guessed(4, 2, 599700), DoVerify("000004", 299700, 0), 299700);
    assert Run(STRICT, all).wrong == 5;
  }

  /** Once a code is accepted or used up, no submission changes anything until a new code is issued. */
  lemma {:induction false} SpentCodeStaysSpent(s: State, cfg: Config, events: seq<Event>)
    requires s.code.None? && forall i :: 0 <= i < |events| ==> events[i].DoVerify?
    ensures RunFrom(s, cfg, events) == s
  {
    if events != [] {
      SpentCodeStaysSpent(s, cfg, events[..|events| - 1]);
    }
  }

  /** In every run a submission is accepted exactly when it is the live code, which is then gone. */
  lemma {:induction false} VerifyAcceptsExactly(cfg: Config, events: seq<Event>, e: Event)
    requires ValidConfig(cfg) && e.DoVerify? && e.submitted != ""
    ensures var s := Run(cfg, events);
            && (Handle(s, cfg, e).1 == Valid <==> Get(s.code, e.now) == Some(e.submitted))
            && (Handle(s, cfg, e).1 == Valid ==> Handle(s, cfg, e).0.code == None)
  {
    WrongIsCountedPlusForgotten(cfg, events);
  }

  // ----- every answer

  predicate IsAscii(text: string) {
    forall i :: 0 <= i < |text| ==> text[i] as int < 0x80
  }

  /** UTF-8 takes as many bytes as UTF-16 takes units for ASCII alone, and more for any other text. */
  lemma {:induction false} BytesAndUnits(text: string)
    ensures |text| <= Utf16Units(text) <= Utf8Bytes(text)
    ensures IsAscii(text) ==> Utf8Bytes(text) == |text|
    ensures Utf8Bytes(text) == Utf16Units(text) ==> IsAscii(text)
  {
    if text != "" {
      BytesAndUnits(text[..|text| - 1]);
    }
  }

  /** The submissions that are compared with a six-digit code, rather than make the comparison throw. */
  lemma ComparableIff(text: string)
    ensures PaddedSize(text) == 6 <==> |text| <= 6 && IsAscii(text)
  {
    BytesAndUnits(text);
  }

  /** The key is there and says so. */
  predicate Shows<T(==)>(c: Option<Cell<T>>, now: int, value: T) {
    c.Some? && now < c.value.expiresAt && c.value.value == value
  }

  /** The wrong comparisons a live attempts key speaks of; a key that has ended or is not there speaks of none. */
  ghost predicate Spent(s: State, now: int, n: int) {
    Shows(s.attempts, now, n) || (n == 0 && forall m :: !Shows(s.attempts, now, m))
  }

  /**
   What a submission gets with a six-digit code stored. It is refused while the counter shows maxAttempts, and
   expired without a live code. Otherwise it throws unless it is six ASCII characters or fewer; the code itself
   is accepted and gone; anything else is counted, for as long as redis.ttl gives the code, or the full time to
   live if it gives none, and the last attempt takes the code with it.
   */
  lemma SubmissionIsAnswered(s: State, cfg: Config, submitted: string, now: int, ttl: int, n: int)
    requires ValidConfig(cfg) && Spent(s, now, n) && (s.code.Some? ==> SixDigitCode(s.code.value.value))
    ensures var (after, reply) := Verify(s, cfg, submitted, now, ttl);
            var stored, comparable := s.code.Some? && now < s.code.value.expiresAt, |submitted| <= 6 && IsAscii(submitted);
            if n >= cfg.maxAttempts then reply == TooManyAttempts && after == s
            else if !stored then reply == Expired && after == s
            else if !comparable then reply == Threw && after == s
            else if submitted == s.code.value.value then
              reply == Valid && after == s.(code := None, attempts := None, accepted := s.accepted + 1)
            else
              && reply == (if n + 1 < cfg.maxAttempts then Invalid else TooManyAttempts)
              && after.attempts == Some(Cell(n + 1, now + 1000 * if ttl > 0 then ttl else cfg.ttl))
              && after.code == (if n + 1 < cfg.maxAttempts then s.code else None)
              && after.resends == s.resends && after.wrong == s.wrong + 1
  {
    ComparableIff(submitted);
    if s.code.Some? {
      SixDigits(s.code.value.value);
    }
    assert s.attempts.Some? && now < s.attempts.value.expiresAt ==> Shows(s.attempts, now, s.attempts.value.value);
  }

  predicate SixDigitCode(text: string) {
    |text| == 6 && forall i :: 0 <= i < 6 ==> '0' <= text[i] <= '9'
  }

  /** A new code starts over with its own life and no attempt counted; the resend counter stays. */
  lemma NewCodeStartsOver(s: State, cfg: Config, code: string, now: int)
    ensures var (after, reply) := Handle(s, cfg, DoGenerate(code, now));
            && reply == Issued(code) && after.code == Some(Cell(code, now + 1000 * cfg.ttl))
            && after.attempts == None && after.resends == s.resends
    ensures var (after, reply) := Handle(s, cfg, DoResend(code, now));
            if reply == Issued(code)
            then after.code == Some(Cell(code, now + 1000 * cfg.ttl)) && after.attempts == None
            else reply == TooManyResends && after == s
  {
  }

  /** The last code handed out, and when. */
  function LastIssued(cfg: Config, events: seq<Event>): Option<(string, int)> {
    if events == [] then None
    else
      var before, e := events[..|events| - 1], events[|events| - 1];
      if !e.DoVerify? && Handle(Run(cfg, before), cfg, e).1.Issued? then Some((e.code, e.now)) else LastIssued(cfg, before)
  }

  lemma {:induction false} StoredIsLatest(cfg: Config, events: seq<Event>)
    ensures var code := Run(cfg, events).code;
            code.Some? ==> LastIssued(cfg, events) == Some((code.value.value, code.value.expiresAt - cfg.ttl * SECOND))
  {
    if events != [] {
      StoredIsLatest(cfg, events[..|events| - 1]);
    }
  }

  /** In every run a submission is accepted only if it is the last code handed out, within its time to live. */
  lemma AcceptedIsLatest(cfg: Config, events: seq<Event>, submitted: string, now: int, ttl: int)
    requires Verify(Run(cfg, events), cfg, submitted, now, ttl).1 == Valid
    ensures LastIssued(cfg, events).Some?
    ensures var (code, at) := LastIssued(cfg, events).value; submitted == code && now < at + cfg.ttl * SECOND
  {
    StoredIsLatest(cfg, events);
  }

  // ----- the resend limit

  /** The moments of the successful resends. */
  function Resends(cfg: Config, events: seq<Event>): seq<int> {
    if events == [] then []
    else
      var earlier := Resends(cfg, events[..|events| - 1]);
      var e := events[|events| - 1];
      if e.DoResend? && Handle(Run(cfg, events[..|events| - 1]), cfg, e).1.Issued? then earlier + [e.now] else earlier
  }

  /** For each successful resend, the position of the one that opened its window. */
  function Openers(cfg: Config, events: seq<Event>): (openers: seq<nat>)
    ensures |openers| == |Resends(cfg, events)|
  {
    if events == [] then []
    else
      var before := events[..|events| - 1];
      var earlier := Openers(cfg, before);
      var e := events[|events| - 1];
      var s := Run(cfg, before);
      if e.DoResend? && Handle(s, cfg, e).1.Issued? then earlier + [OpenerFor(s, earlier, e.now)] else earlier
  }

  /** A resend made while no counter is live opens a window of its own. */
  function OpenerFor(s: State, openers: seq<nat>, now: int): nat {
    if CountOf(s.resends, now) == 0 || openers == [] then |openers| else openers[|openers| - 1]
  }

  /** Windows of at most `max` resends, each opened at least `window` after the one before it. */
  ghost predicate Windows(times: seq<int>, openers: seq<nat>, window: int, max: nat) {
    && |times| == |openers|
    && (forall k :: 0 <= k < |times| ==> openers[k] <= k < openers[k] + max)
    && (forall k :: 0 < k < |times| ==> openers[k] == openers[k - 1] || openers[k] == k)
    && (forall k :: 0 < k < |times| && openers[k] == k ==> times[k] >= times[openers[k - 1]] + window)
    && (forall i, j :: 0 <= i < j < |times| ==> times[i] <= times[j])
  }

  /** The resend counter describes the last window. */
  ghost predicate CounterFits(s: State, times: seq<int>, openers: seq<nat>, cfg: Config) {
    && |times| == |openers|
    && (times == [] ==> s.resends.None?)
    && (times != [] ==>
          var first := openers[|times| - 1];
          && first < |times|
          && s.resends == Some(Cell(|times| - first, times[first] + cfg.resendWindow * SECOND)))
  }

  lemma AppendWindow(times: seq<int>, openers: seq<nat>, window: int, max: nat, x: int, opener: nat)
    requires Windows(times, openers, window, max) && max > 0
    requires forall i :: 0 <= i < |times| ==> times[i] <= x
    requires opener == |times| || (times != [] && opener == openers[|times| - 1] && |times| < opener + max)
    requires times != [] && opener == |times| ==> x >= times[openers[|times| - 1]] + window
    ensures Windows(times + [x], openers + [opener], window, max)
  {
  }

  /** One successful resend keeps the windows and the counter in step. */
  lemma ResendStep(s: State, cfg: Config, code: string, now: int, times: seq<int>, openers: seq<nat>)
    requires ValidConfig(cfg) && Resend(s, cfg, code, now).1.Issued?
    requires Windows(times, openers, cfg.resendWindow * SECOND, cfg.resendMax)
    requires CounterFits(s, times, openers, cfg)
    requires forall i :: 0 <= i < |times| ==> times[i] <= now
    ensures Windows(times + [now], openers + [OpenerFor(s, openers, now)], cfg.resendWindow * SECOND, cfg.resendMax)
    ensures CounterFits(Resend(s, cfg, code, now).0, times + [now], openers + [OpenerFor(s, openers, now)], cfg)
  {
    AppendWindow(times, openers, cfg.resendWindow * SECOND, cfg.resendMax, now, OpenerFor(s, openers, now));
  }

  lemma OthersKeepResends(s: State, cfg: Config, e: Event)
    requires e.DoResend? ==> !Resend(s, cfg, e.code, e.now).1.Issued?
    ensures Handle(s, cfg, e).0.resends == s.resends
  {
  }

  /** What the history of resends says about the state at time `now`. */
  ghost predicate ResendHistory(s: State, cfg: Config, times: seq<int>, openers: seq<nat>, now: int) {
    && Windows(times, openers, cfg.resendWindow * SECOND, cfg.resendMax)
    && CounterFits(s, times, openers, cfg)
    && forall i :: 0 <= i < |times| ==> times[i] <= now
  }

  lemma EventKeepsHistory(s: State, cfg: Config, e: Event, times: seq<int>, openers: seq<nat>, now: int)
    requires ValidConfig(cfg) && ResendHistory(s, cfg, times, openers, now) && now <= e.now
    ensures var issued := e.DoResend? && Handle(s, cfg, e).1.Issued?;
            ResendHistory(Handle(s, cfg, e).0, cfg, if issued then times + [e.now] else times,
                          if issued then openers + [OpenerFor(s, openers, e.now)] else openers, e.now)
  {
    if e.DoResend? && Resend(s, cfg, e.code, e.now).1.Issued? {
      ResendStep(s, cfg, e.code, e.now, times, openers);
    } else {
      OthersKeepResends(s, cfg, e);
    }
  }

  lemma {:induction false} ResendsAreWindowed(cfg: Config, events: seq<Event>, now: int)
    requires ValidConfig(cfg) && ClockRuns(events)
    requires events != [] ==> now == events[|events| - 1].now
    ensures ResendHistory(Run(cfg, events), cfg, Resends(cfg, events), Openers(cfg, events), now)
  {
    if events != [] {
      var before, e := events[..|events| - 1], events[|events| - 1];
      var last := if before == [] then e.now else before[|before| - 1].now;
      ResendsAreWindowed(cfg, before, last);
      EventKeepsHistory(Run(cfg, before), cfg, e, Resends(cfg, before), Openers(cfg, before), last);
    }
  }

  /** Among 2 * max consecutive resends two consecutive windows open, so they span a whole window length. */
  lemma TwoOpenersInside(times: seq<int>, openers: seq<nat>, window: int, max: nat, i: nat)
    requires Windows(times, openers, window, max) && max > 0 && i + 2 * max - 1 < |times|
    ensures times[i + 2 * max - 1] >= times[i] + window
  {
    var a := i;
    if openers[i] != i {
      a := NextOpener(times, openers, window, max, i);
    }
    var b := NextOpener(times, openers, window, max, a);
    assert times[b] >= times[a] + window;
  }

  /** The window after the one that holds resend i opens at most `max` resends after i's window did. */
  lemma NextOpener(times: seq<int>, openers: seq<nat>, window: int, max: nat, i: nat) returns (next: nat)
    requires Windows(times, openers, window, max) && i < |times| && openers[i] + max < |times|
    ensures i < next <= openers[i] + max && openers[next] == next && openers[next - 1] == openers[i]
  {
    next := i + 1;
    while openers[next] != next
      invariant i < next <= openers[i] + max
      invariant openers[next - 1] == openers[i]
      decreases openers[i] + max - next
    {
      next := next + 1;
    }
  }

  /** How many of the moments lie in [start, start + length). */
  function InInterval(times: seq<int>, start: int, length: int): nat {
    if times == [] then 0
    else
      InInterval(times[..|times| - 1], start, length)
      + if start <= times[|times| - 1] < start + length then 1 else 0
  }

  lemma {:induction false} IntervalIsRun(times: seq<int>, start: int, length: int) returns (from: nat)
    requires forall i, j :: 0 <= i < j < |times| ==> times[i] <= times[j]
    ensures from + InInterval(times, start, length) <= |times|
    ensures InInterval(times, start, length) > 0 ==>
              start <= times[from] && times[from + InInterval(times, start, length) - 1] < start + length
    ensures InInterval(times, start, length) > 0 && times[|times| - 1] < start + length ==>
              from + InInterval(times, start, length) == |times|
  {
    from := 0;
    if times != [] {
      var n := |times| - 1;
      from := IntervalIsRun(times[..n], start, length);
      if start <= times[n] < start + length && InInterval(times[..n], start, length) == 0 {
        from := n;
      }
    }
  }

  lemma WindowsLimitInterval(times: seq<int>, openers: seq<nat>, window: int, max: nat, start: int)
    requires Windows(times, openers, window, max) && max > 0
    ensures InInterval(times, start, window) <= 2 * max - 1
  {
    var count := InInterval(times, start, window);
    var from := IntervalIsRun(times, start, window);
    if count >= 2 * max {
      assert times[from + 2 * max - 1] <= times[from + count - 1];
      TwoOpenersInside(times, openers, window, max, from);
    }
  }

  /** Any interval of one resend-window length holds at most 2 * resendMax - 1 successful resends. */
  lemma ResendLimit(cfg: Config, events: seq<Event>, start: int)
    requires ValidConfig(cfg) && ClockRuns(events)
    ensures InInterval(Resends(cfg, events), start, cfg.resendWindow * SECOND) <= 2 * cfg.resendMax - 1
  {
    ResendsAreWindowed(cfg, events, if events == [] then 0 else events[|events| - 1].now);
    WindowsLimitInterval(Resends(cfg, events), Openers(cfg, events), cfg.resendWindow * SECOND, cfg.resendMax, start);
  }

  // ----- when a resend is refused

  /** Which of the resends opened the window the last one falls in: a window runs from its first resend. */
  function OpenedBy(times: seq<int>, window: int): (at: nat)
    requires times != []
    ensures at < |times|
  {
    var n := |times| - 1;
    if n == 0 then 0
    else
      var at := OpenedBy(times[..n], window);
      if times[at] + window <= times[n] then n else at
  }

  /** The counter is the window's: the resends made in it so far, until its end. */
  ghost predicate CountsWindow(s: State, cfg: Config, times: seq<int>) {
    if times == [] then s.resends == None
    else
      var at := OpenedBy(times, cfg.resendWindow * SECOND);
      s.resends == Some(Cell(|times| - at, times[at] + cfg.resendWindow * SECOND))
  }

  lemma EventCountsWindow(s: State, cfg: Config, e: Event, times: seq<int>)
    requires ValidConfig(cfg) && CountsWindow(s, cfg, times)
    ensures CountsWindow(Handle(s, cfg, e).0, cfg,
                         if e.DoResend? && Handle(s, cfg, e).1.Issued? then times + [e.now] else times)
  {
    if e.DoResend? && Handle(s, cfg, e).1.Issued? {
      assert (times + [e.now])[..|times|] == times;
    }
  }

  lemma {:induction false} RunCountsWindow(cfg: Config, events: seq<Event>)
    requires ValidConfig(cfg)
    ensures CountsWindow(Run(cfg, events), cfg, Resends(cfg, events))
  {
    if events != [] {
      var before, e := events[..|events| - 1], events[|events| - 1];
      RunCountsWindow(cfg, before);
      EventCountsWindow(Run(cfg, before), cfg, e, Resends(cfg, before));
    }
  }

  /**
   After any run a resend is refused exactly when resendMax have succeeded in the window that the first of them
   opened, and that window is not over.
   */
  lemma ResendRefusedIff(cfg: Config, events: seq<Event>, code: string, now: int)
    requires ValidConfig(cfg)
    ensures var times, reply := Resends(cfg, events), Handle(Run(cfg, events), cfg, DoResend(code, now)).1;
            reply == TooManyResends <==>
              times != [] && var at := OpenedBy(times, cfg.resendWindow * SECOND);
                             |times| - at >= cfg.resendMax && now < times[at] + cfg.resendWindow * SECOND
  {
    RunCountsWindow(cfg, events);
  }

  const TWO_IN_TEN: Config := Config(300, 3, 10, 2)

  /** A run whose resends were made at these moments and left this counter. */
  ghost predicate Resent(events: seq<Event>, times: seq<int>, counter: Cell<int>) {
    && ClockRuns(events) && events != [] && times != [] && events[|events| - 1].now == times[|times| - 1]
    && Resends(TWO_IN_TEN, events) == times && Run(TWO_IN_TEN, events).resends == Some(counter)
  }

  lemma FirstResend() returns (events: seq<Event>)
    ensures Resent(events, [0], Cell(1, 10000))
  {
    events := [DoResend("111111", 0)];
    assert events[..0] == [];
  }

  lemma NextResend(events: seq<Event>, times: seq<int>, counter: Cell<int>, now: int) returns (longer: seq<Event>)
    requires Resent(events, times, counter) && times[|times| - 1] <= now && CountOf(Some(counter), now) < 2
    ensures Resent(longer, times + [now],
                   if CountOf(Some(counter), now) == 0 then Cell(1, now + 10000) else Cell(counter.value + 1, counter.expiresAt))
  {
    longer := events + [DoResend("222222", now)];
    assert longer[..|events|] == events;
  }

  /** The bound is reached: with two resends to a window of ten seconds, three succeed between seconds 1 and 11. */
  lemma ResendLimitIsTight()
    ensures exists events: seq<Event> ::
              ClockRuns(events) && InInterval(Resends(TWO_IN_TEN, events), 1000, 10 * SECOND) == 2 * TWO_IN_TEN.resendMax - 1
  {
    var one := FirstResend();
    var two := NextResend(one, [0], Cell(1, 10000), 9000);
    var three := NextResend(two, [0, 9000], Cell(2, 10000), 10000);
    var four := NextResend(three, [0, 9000, 10000], Cell(1, 20000), 10000);
    FourMoments(Resends(TWO_IN_TEN, four));
  }

  lemma FourMoments(times: seq<int>)
    requires times == [0, 9000, 10000, 10000]
    ensures InInterval(times, 1000, 10000) == 3
  {
    assert times[..3] == [0, 9000, 10000] && [0, 9000, 10000][..2] == [0, 9000] && [0, 9000][..1] == [0];
    assert InInterval([0], 1000, 10000) == 0;
    assert InInterval([0, 9000], 1000, 10000) == 1;
    assert InInterval([0, 9000, 10000], 1000, 10000) == 2;
  }

  /** One user's codes of one type in the mutable Redis store. */
  class OtpStore {
    var code: Option<Cell<string>>
    var attempts: Option<Cell<int>>
    var resends: Option<Cell<int>>
    ghost var issue: nat
    ghost var wrong: nat
    ghost var accepted: nat
    const cfg: Config

    ghost function View(): State
      reads this
    {
      State(code, attempts, resends, issue, wrong, accepted)
    }

    constructor (config: Config)
      ensures View() == EMPTY && cfg == config
    {
      code, attempts, resends, issue, wrong, accepted, cfg := None, None, None, 0, 0, 0, config;
    }

    method GenerateOtp(otp: string, now: int)
      modifies this
      ensures View() == Generate(old(View()), cfg, otp, now)
    {
      code := Some(Cell(otp, now + cfg.ttl * SECOND));
      attempts := None;
      issue, wrong, accepted := issue + 1, 0, 0;
    }

    /** `ttl` is the answer of redis.ttl, should it be asked. */
    method VerifyOtp(submitted: string, now: int, ttl: int) returns (r: Reply)
      modifies this
      ensures (View(), r) == Handle(old(View()), cfg, DoVerify(submitted, now, ttl))
    {
      var attemptCount := CountOf(attempts, now);
      if attemptCount >= cfg.maxAttempts {
        return TooManyAttempts;
      }
      var stored := Get(code, now);
      if stored.None? || stored.value == "" {
        return Expired;
      }
      if PaddedSize(submitted) != PaddedSize(stored.value) {
        return Threw;
      }
      var isValid := stored.value == submitted;
      if !isValid {
        var remainingTtl := if ttl > 0 then ttl else cfg.ttl;
        attempts := Some(Cell(attemptCount + 1, now + remainingTtl * SECOND));
        wrong := wrong + 1;
        var remaining := cfg.maxAttempts - (attemptCount + 1);
        if remaining <= 0 {
          code := None;
          return TooManyAttempts;
        }
        return Invalid;
      }
      code, attempts := None, None;
      accepted := accepted + 1;
      return Valid;
    }

    method ResendOtp(otp: string, now: int) returns (r: Reply)
      modifies this
      ensures (View(), r) == Handle(old(View()), cfg, DoResend(otp, now))
    {
      var count := CountOf(resends, now);
      if count >= cfg.resendMax {
        return TooManyResends;
      }
      code, attempts := None, None;
      GenerateOtp(otp, now);
      if count == 0 || resends.None? {
        resends := Some(Cell(1, now + cfg.resendWindow * SECOND));
      } else {
        resends := Some(Cell(count + 1, resends.value.expiresAt));
      }
      return Issued(otp);
    }
  }
}
