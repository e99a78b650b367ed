/** Daily limits across tier upgrades, and what an idempotency key does and does not promise. */
module TransfersProofs {
  import opened Common
  import opened LedgerEntries
  import LedgerProofs
  import opened TransfersModel
  import Kyc

  // ----- how a call can change the state

  /** The only way a transfer call adds entries: it passed the limit, the balance and the table's constraints. */
  lemma TransferShape(s: State, c: Call)
    requires IsTransfer(c)
    ensures var s' := Apply(s, c).0;
            s' != s ==>
              && c.sender in s.accounts
              && WithinDailyLimit(s, c.sender, c.amount, TypeOf(c))
              && Balance(s.entries, c.sender) >= c.amount
              && (TypeOf(c) == TransferInternal ==> c.recipient in s.accounts && c.recipient != c.sender)
              && Apply(s, c).1.Done? && Apply(s, c).1.id == |s.txns|
              && var row := Apply(s, c).1.txn;
              && row.key == Client(c.key) && row.sender == Some(c.sender) && row.amount == c.amount == row.fee + row.netAmount
              && row.reference == c.reference && row.original == None && RowAllowed(s.txns, row)
              && s' == s.(txns := s.txns + [row], entries := s.entries + Postings(WorkOf(c), |s.txns|, s.clock))
  {
  }

  // ----- daily limits

  /** The debits of a wallet through a channel on one calendar day. */
  function DaySum(entries: seq<Entry>, w: WalletId, t: TxnType, day: int): int {
    if entries == [] then 0
    else
      var e := entries[|entries| - 1];
      DaySum(entries[..|entries| - 1], w, t, day)
      + if CountsAgainst(e, w, t) && e.createdAt / DAY_MS == day then e.amount else 0
  }

  lemma DaySumAppend(entries: seq<Entry>, e: Entry, w: WalletId, t: TxnType, day: int)
    ensures DaySum(entries + [e], w, t, day)
            == DaySum(entries, w, t, day) + if CountsAgainst(e, w, t) && e.createdAt / DAY_MS == day then e.amount else 0
  {
    assert (entries + [e])[..|entries|] == entries;
  }

  ghost predicate NothingLater(entries: seq<Entry>, clock: int) {
    forall i :: 0 <= i < |entries| ==> entries[i].createdAt <= clock
  }

  lemma SinceMidnightIsToday(at: int, now: int)
    requires at <= now
    ensures at >= TodayStart(now) <==> at / DAY_MS == now / DAY_MS
  {
  }

  /** With no entry in the future, "since midnight" is the calendar day. */
  lemma {:induction false} UsedIsToday(entries: seq<Entry>, w: WalletId, t: TxnType, now: int)
    requires NothingLater(entries, now)
    ensures UsedSince(entries, w, t, TodayStart(now)) == DaySum(entries, w, t, now / DAY_MS)
  {
    if entries != [] {
      var n := |entries| - 1;
      UsedIsToday(entries[..n], w, t, now);
      SinceMidnightIsToday(entries[n].createdAt, now);
    }
  }

  predicate IsChannel(t: TxnType) {
    t == TransferInternal || t == TransferBank
  }

  ghost predicate DaysHold(s: State) {
    forall w, t, day :: w in s.accounts && IsChannel(t) ==> DaySum(s.entries, w, t, day) <= DailyLimit(s.accounts[w], t)
  }

  lemma PostingsDaySum(s: State, work: Work, w: WalletId, t: TxnType, day: int)
    requires IsChannel(t) && !work.BankReversal?
    ensures DaySum(s.entries + Postings(work, |s.txns|, s.clock), w, t, day)
            == DaySum(s.entries, w, t, day)
               + if work.sender == w && s.clock / DAY_MS == day && t == (if work.InternalTransfer? then TransferInternal else TransferBank)
                 then work.amount else 0
  {
    var ps := Postings(work, |s.txns|, s.clock);
    DaySumAppend(s.entries, ps[0], w, t, day);
    if work.InternalTransfer? {
      DaySumAppend(s.entries + [ps[0]], ps[1], w, t, day);
      assert s.entries + [ps[0]] + [ps[1]] == s.entries + ps;
    }
  }

  lemma TransferKeepsDays(s: State, c: Call)
    requires IsTransfer(c) && DaysHold(s) && NothingLater(s.entries, s.clock)
    ensures DaysHold(Apply(s, c).0) && NothingLater(Apply(s, c).0.entries, s.clock)
  {
    TransferShape(s, c);
    var s' := Apply(s, c).0;
    if s' != s {
      forall w, u, day | w in s'.accounts && IsChannel(u)
        ensures DaySum(s'.entries, w, u, day) <= DailyLimit(s'.accounts[w], u)
      {
        PostingsDaySum(s, WorkOf(c), w, u, day);
        UsedIsToday(s.entries, w, u, s.clock);
      }
    }
  }

  lemma UpgradeKeepsDays(s: State, c: Call)
    requires c.UpgradeTier? && DaysHold(s)
    ensures DaysHold(Apply(s, c).0)
  {
    var s' := Apply(s, c).0;
    forall w, t, day | w in s'.accounts && IsChannel(t)
      ensures DaySum(s'.entries, w, t, day) <= DailyLimit(s'.accounts[w], t)
    {
      var low, high := Kyc.CurrentTier(s.accounts[w].kyc.tier), Kyc.CurrentTier(s'.accounts[w].kyc.tier);
      Kyc.LimitsAreMonotone(low, high, ChannelOf(t));
    }
  }

  lemma CreditKeepsDays(s: State, c: Call)
    requires (c.Fund? || c.Reverse?) && DaysHold(s) && NothingLater(s.entries, s.clock)
    ensures DaysHold(Apply(s, c).0) && NothingLater(Apply(s, c).0.entries, s.clock)
  {
    var s' := Apply(s, c).0;
    if s' != s {
      var e := s'.entries[|s.entries|];
      assert s'.entries == s.entries + [e];
      forall w, t, day | w in s'.accounts && IsChannel(t)
        ensures DaySum(s'.entries, w, t, day) <= DailyLimit(s'.accounts[w], t)
      {
        DaySumAppend(s.entries, e, w, t, day);
      }
    }
  }

  /**
   For every wallet, calendar day and channel the accepted debits never exceed the limit of the user's
   current tier, however session transfers, Universal ID transfers, funding, reversals and upgrades mix.
   */
  lemma {:induction false} DailyLimitsHold(s: State, calls: seq<Call>)
    requires DaysHold(s) && NothingLater(s.entries, s.clock)
    ensures DaysHold(Run(s, calls)) && NothingLater(Run(s, calls).entries, Run(s, calls).clock)
  {
    if calls != [] {
      var before := Run(s, calls[..|calls| - 1]);
      var c := calls[|calls| - 1];
      DailyLimitsHold(s, calls[..|calls| - 1]);
      if IsTransfer(c) {
        TransferKeepsDays(before, c);
      } else if c.UpgradeTier? {
        UpgradeKeepsDays(before, c);
      } else if c.Fund? || c.Reverse? {
        CreditKeepsDays(before, c);
      }
    }
  }

  // ----- idempotency

  function DebitsOf(entries: seq<Entry>, txn: nat): nat {
    if entries == [] then 0
    else
      var e := entries[|entries| - 1];
      DebitsOf(entries[..|entries| - 1], txn) + if e.txn == txn && e.kind == Debit then 1 else 0
  }

  lemma DebitsAppend(entries: seq<Entry>, e: Entry, txn: nat)
    ensures DebitsOf(entries + [e], txn) == DebitsOf(entries, txn) + if e.txn == txn && e.kind == Debit then 1 else 0
  {
    assert (entries + [e])[..|entries|] == entries;
  }

  ghost predicate KeysAndDebits(s: State) {
    && (forall i, j :: 0 <= i < j < |s.txns| ==> s.txns[i].key != s.txns[j].key)
    && (forall i :: 0 <= i < |s.txns| ==> DebitsOf(s.entries, i) == if s.txns[i].sender.Some? then 1 else 0)
    && (forall i :: i >= |s.txns| ==> DebitsOf(s.entries, i) == 0)
  }

  lemma PostingsDebits(entries: seq<Entry>, work: Work, txn: nat, now: int, i: nat)
    ensures DebitsOf(entries + Postings(work, txn, now), i)
            == DebitsOf(entries, i) + if i == txn && !work.BankReversal? then 1 else 0
  {
    var ps := Postings(work, txn, now);
    DebitsAppend(entries, ps[0], i);
    if work.InternalTransfer? {
      DebitsAppend(entries + [ps[0]], ps[1], i);
      assert entries + [ps[0]] + [ps[1]] == entries + ps;
    }
  }

  lemma InsertKeepsKeysAndDebits(s: State, t: Txn, work: Work)
    requires KeysAndDebits(s) && (t.sender.Some? <==> !work.BankReversal?)
    ensures KeysAndDebits(Insert(s, t, work).0)
  {
    forall i: nat
      ensures DebitsOf(s.entries + Postings(work, |s.txns|, s.clock), i)
              == DebitsOf(s.entries, i) + if i == |s.txns| && !work.BankReversal? then 1 else 0
    {
      PostingsDebits(s.entries, work, |s.txns|, s.clock, i);
    }
  }

  lemma FundKeepsKeysAndDebits(s: State, w: WalletId, amount: int, reference: string)
    requires KeysAndDebits(s)
    ensures KeysAndDebits(FundWallet(s, w, amount, reference).0)
  {
    var e := Entry(w, |s.txns|, Credit, amount, Funding, s.clock);
    forall i: nat ensures DebitsOf(s.entries + [e], i) == DebitsOf(s.entries, i) {
      DebitsAppend(s.entries, e, i);
    }
  }

  lemma CallKeepsKeysAndDebits(s: State, c: Call)
    requires KeysAndDebits(s)
    ensures KeysAndDebits(Apply(s, c).0)
  {
    if IsTransfer(c) {
      TransferShape(s, c);
      if Apply(s, c).0 != s {
        InsertKeepsKeysAndDebits(s, Apply(s, c).1.txn, WorkOf(c));
      }
    } else if c.Fund? {
      FundKeepsKeysAndDebits(s, c.wallet, c.amount, c.reference);
    } else if c.Reverse? {
      InsertKeepsKeysAndDebits(s, ReversalRow(s, c.original, c.wallet, c.amount, c.reference),
        BankReversal(c.wallet, c.amount));
    }
  }

  lemma {:induction false} RunKeepsKeysAndDebits(s: State, calls: seq<Call>)
    requires KeysAndDebits(s)
    ensures KeysAndDebits(Run(s, calls))
  {
    if calls != [] {
      RunKeepsKeysAndDebits(s, calls[..|calls| - 1]);
      CallKeepsKeysAndDebits(Run(s, calls[..|calls| - 1]), calls[|calls| - 1]);
    }
  }

  lemma StoredIsOnly(s: State, sender: WalletId, key: string, i: nat)
    requires KeysAndDebits(s) && i < |s.txns| && IsStored(s.txns[i], sender, key)
    ensures FindStored(s.txns, sender, key) == Some(i) && DebitsOf(s.entries, i) == 1
  {
    assert FindStored(s.txns, sender, key).Some?;
  }

  /** Any number of calls with one sender and key, on any path, create one transaction and one debit at most. */
  lemma {:induction false} OneDebitPerKey(s: State, calls: seq<Call>, sender: WalletId, key: string, i: nat, j: nat)
    requires KeysAndDebits(s)
    requires i < |Run(s, calls).txns| && IsStored(Run(s, calls).txns[i], sender, key)
    requires j < |Run(s, calls).txns| && IsStored(Run(s, calls).txns[j], sender, key)
    ensures i == j && DebitsOf(Run(s, calls).entries, i) == 1
    ensures FindStored(Run(s, calls).txns, sender, key) == Some(i)
  {
    RunKeepsKeysAndDebits(s, calls);
    StoredIsOnly(Run(s, calls), sender, key, i);
    StoredIsOnly(Run(s, calls), sender, key, j);
  }

  /** A call whose key some transaction already carries, whoever sent it, moves no money. */
  lemma UsedKeyMovesNothing(s: State, c: Call, i: nat)
    requires IsTransfer(c) && i < |s.txns| && s.txns[i].key == Client(c.key)
    ensures Apply(s, c).0 == s
  {
    TransferShape(s, c);
  }

  /** The guards a session call meets before the lookup by key. */
  predicate PassesGuards(s: State, c: Call)
    requires c.SessionInternal? || c.SessionBank?
  {
    && c.sender in s.accounts && s.accounts[c.sender].hasPin && s.accounts[c.sender].active
    && (c.SessionInternal? ==>
          c.recipient != c.sender && c.recipient in s.accounts && s.accounts[c.recipient].active)
    && c.fraudOk && c.secretOk
    && WithinDailyLimit(s, c.sender, c.amount, if c.SessionInternal? then TransferInternal else TransferBank)
  }

  /** A replay answers with the stored transaction exactly when it passes the guards all over again. */
  lemma ReplayAnswersIffGuardsPass(s: State, c: Call, i: nat)
    requires c.SessionInternal? || c.SessionBank?
    requires KeysAndDebits(s) && i < |s.txns| && IsStored(s.txns[i], c.sender, c.key)
    ensures Apply(s, c).0 == s
    ensures Apply(s, c).1 == Done(i, s.txns[i]) <==> PassesGuards(s, c)
    ensures !PassesGuards(s, c) ==> Apply(s, c).1.Rejected?
  {
    UsedKeyMovesNothing(s, c, i);
    assert FindStored(s.txns, c.sender, c.key) == Some(i);
  }

  /** What the balance and the transactions table ask of a new transfer. */
  predicate CanPost(s: State, c: Call)
    requires IsTransfer(c)
  {
    && Balance(s.entries, c.sender) >= c.amount > 0
    && forall i :: 0 <= i < |s.txns| ==> s.txns[i].key != Client(c.key) && s.txns[i].reference != c.reference
  }

  /** The row of a transfer: 50 naira of a tier-1 user's bank transfer are the fee, and the parties are the call's. */
  predicate RowSays(s: State, c: Call, row: Txn)
    requires IsTransfer(c) && c.sender in s.accounts
  {
    && row.amount == c.amount && row.sender == Some(c.sender) && row.reference == c.reference && row.original == None
    && row.fee == (if (c.SessionBank? || c.UidBank?) && s.accounts[c.sender].kyc.tier <= 1 then 5000 else 0)
    && row.netAmount == row.amount - row.fee
    && row.txnType == (if c.SessionBank? || c.UidBank? then TransferBank else TransferInternal)
    && row.receiver == (if c.SessionBank? || c.UidBank? then None else Some(c.recipient))
  }

  /** A session transfer under a new key goes through exactly when guards, balance and table constraints allow it. */
  lemma NewTransferAcceptedIff(s: State, c: Call)
    requires (c.SessionInternal? || c.SessionBank?) && FindStored(s.txns, c.sender, c.key) == None
    ensures Apply(s, c).1.Done? <==> PassesGuards(s, c) && CanPost(s, c)
    ensures Apply(s, c).1.Done? ==>
              Apply(s, c).0.entries == s.entries + Postings(WorkOf(c), |s.txns|, s.clock) && RowSays(s, c, Apply(s, c).1.txn)
  {
  }

  /** The guards of the Universal ID paths. */
  predicate PassesUidGuards(s: State, c: Call)
    requires c.UidInternal? || c.UidBank?
  {
    && c.sender in s.accounts && s.accounts[c.sender].hasUpp && s.accounts[c.sender].active
    && (c.UidInternal? ==> c.recipient != c.sender && c.recipient in s.accounts && s.accounts[c.recipient].active)
    && c.fraudOk && c.secretOk
    && WithinDailyLimit(s, c.sender, c.amount, TypeOf(c))
  }

  /** A Universal ID transfer has no replay: it goes through exactly when guards, balance and constraints allow it. */
  lemma UidTransferAcceptedIff(s: State, c: Call)
    requires c.UidInternal? || c.UidBank?
    ensures Apply(s, c).1.Done? <==> PassesUidGuards(s, c) && CanPost(s, c)
    ensures !Apply(s, c).1.Done? ==> Apply(s, c).0 == s
    ensures Apply(s, c).1.Done? ==> RowSays(s, c, Apply(s, c).1.txn)
  {
  }

  /** Rows are never changed or removed. */
  lemma {:induction false} RowsStay(s: State, calls: seq<Call>)
    ensures s.txns <= Run(s, calls).txns
  {
    if calls != [] {
      RowsStay(s, calls[..|calls| - 1]);
      if IsTransfer(calls[|calls| - 1]) {
        TransferShape(Run(s, calls[..|calls| - 1]), calls[|calls| - 1]);
      }
    }
  }

  /**
   A Universal ID transfer is answered at most once: whatever is called after it has been accepted, with its
   key it is refused for good and moves nothing.
   */
  lemma {:induction false} UidReplayIsRefused(s: State, first: Call, calls: seq<Call>, again: Call)
    requires (first.UidInternal? || first.UidBank?) && Apply(s, first).1.Done?
    requires (again.UidInternal? || again.UidBank?) && again.key == first.key
    ensures var later := Run(Apply(s, first).0, calls);
            Apply(later, again).1.Rejected? && Apply(later, again).0 == later
  {
    var accepted := Apply(s, first).0;
    TransferShape(s, first);
    UidTransferAcceptedIff(s, first);
    RowsStay(accepted, calls);
    assert Run(accepted, calls).txns[|s.txns|] == accepted.txns[|s.txns|];
    UidTransferAcceptedIff(Run(accepted, calls), again);
  }

  lemma UsedAppend(entries: seq<Entry>, e: Entry, w: WalletId, t: TxnType, start: int)
    ensures UsedSince(entries + [e], w, t, start)
            == UsedSince(entries, w, t, start) + if CountsAgainst(e, w, t) && e.createdAt >= start then e.amount else 0
  {
    assert (entries + [e])[..|entries|] == entries;
  }

  /**
   The limit check counts the original as well: an accepted session transfer, repeated at once with the
   same key and body, gets its stored answer exactly when twice its amount still fits the day's limit.
   */
  lemma ImmediateReplayAnsweredIff(s: State, c: Call)
    requires c.SessionInternal? && KeysAndDebits(s) && FindStored(s.txns, c.sender, c.key) == None
    requires Apply(s, c).1.Done?
    ensures var first := Apply(s, c);
            var fits := UsedSince(s.entries, c.sender, TransferInternal, TodayStart(s.clock)) + 2 * c.amount
                        <= DailyLimit(s.accounts[c.sender], TransferInternal);
            Apply(first.0, c) == if fits then first else (first.0, Rejected(LimitReached))
  {
    var s' := Apply(s, c).0;
    NewTransferAcceptedIff(s, c);
    TransferShape(s, c);
    CallKeepsKeysAndDebits(s, c);
    ReplayAnswersIffGuardsPass(s', c, |s.txns|);
    var ps := Postings(InternalTransfer(c.sender, c.recipient, c.amount), |s.txns|, s.clock);
    assert s'.entries == s.entries + [ps[0]] + [ps[1]];
    UsedAppend(s.entries, ps[0], c.sender, TransferInternal, TodayStart(s.clock));
    UsedAppend(s.entries + [ps[0]], ps[1], c.sender, TransferInternal, TodayStart(s.clock));
  }

  // ----- reversals

  /** How many credits reverse the transaction. */
  function CreditsBack(entries: seq<Entry>, txns: seq<Txn>, id: nat): nat {
    if entries == [] then 0
    else
      var e := entries[|entries| - 1];
      CreditsBack(entries[..|entries| - 1], txns, id)
      + if e.kind == Credit && e.txn < |txns| && txns[e.txn].original == Some(id) then 1 else 0
  }

  lemma CreditsBackAppend(entries: seq<Entry>, e: Entry, txns: seq<Txn>, id: nat)
    ensures CreditsBack(entries + [e], txns, id)
            == CreditsBack(entries, txns, id)
               + if e.kind == Credit && e.txn < |txns| && txns[e.txn].original == Some(id) then 1 else 0
  {
    assert (entries + [e])[..|entries|] == entries;
  }

  lemma {:induction false} CreditsBackStay(entries: seq<Entry>, txns: seq<Txn>, t: Txn, id: nat)
    requires forall i :: 0 <= i < |entries| ==> entries[i].txn < |txns|
    ensures CreditsBack(entries, txns + [t], id) == CreditsBack(entries, txns, id)
  {
    if entries != [] {
      CreditsBackStay(entries[..|entries| - 1], txns, t, id);
    }
  }

  ghost predicate ReversalsOnce(s: State) {
    && (forall i :: 0 <= i < |s.entries| ==> s.entries[i].txn < |s.txns|)
    && (forall i, j :: 0 <= i < j < |s.txns| && s.txns[i].original.Some? ==> s.txns[i].original != s.txns[j].original)
    && (forall i :: 0 <= i < |s.txns| && s.txns[i].original.Some? ==> s.txns[i].original.value < i)
    && (forall id: nat :: CreditsBack(s.entries, s.txns, id) == if IsReversed(s.txns, id) then 1 else 0)
  }

  lemma ReversedByNew(txns: seq<Txn>, t: Txn, id: nat)
    ensures IsReversed(txns + [t], id) <==> IsReversed(txns, id) || t.original == Some(id)
  {
    assert (txns + [t])[|txns|] == t;
    if IsReversed(txns, id) {
      var i :| 0 <= i < |txns| && txns[i].original == Some(id);
      assert (txns + [t])[i] == txns[i];
    }
  }

  /** A new row's entries reverse a transaction exactly when the row names it. */
  lemma CreditsBackOfRow(entries: seq<Entry>, txns: seq<Txn>, t: Txn, ps: seq<Entry>, id: nat)
    requires forall i :: 0 <= i < |entries| ==> entries[i].txn < |txns|
    requires 1 <= |ps| <= 2 && forall i :: 0 <= i < |ps| ==> ps[i].txn == |txns|
    requires t.original.Some? ==> |ps| == 1 && ps[0].kind == Credit
    ensures CreditsBack(entries + ps, txns + [t], id)
            == CreditsBack(entries, txns, id) + if t.original == Some(id) then 1 else 0
  {
    var rows, first := txns + [t], entries + [ps[0]];
    CreditsBackStay(entries, txns, t, id);
    CreditsBackAppend(entries, ps[0], rows, id);
    assert rows[|txns|] == t;
    if |ps| == 2 {
      CreditsBackAppend(first, ps[1], rows, id);
      assert entries + ps == first + [ps[1]];
    } else {
      assert entries + ps == first;
    }
  }

  /** One row more, with its entries, of which the last is the only credit. */
  lemma RowKeepsReversals(s: State, t: Txn, ps: seq<Entry>, s': State)
    requires ReversalsOnce(s) && RowAllowed(s.txns, t)
    requires s'.txns == s.txns + [t] && s'.entries == s.entries + ps
    requires 1 <= |ps| <= 2 && forall i :: 0 <= i < |ps| ==> ps[i].txn == |s.txns|
    requires t.original.Some? ==> |ps| == 1 && ps[0].kind == Credit
    ensures ReversalsOnce(s')
  {
    forall id: nat ensures CreditsBack(s'.entries, s'.txns, id) == if IsReversed(s'.txns, id) then 1 else 0 {
      CreditsBackOfRow(s.entries, s.txns, t, ps, id);
      ReversedByNew(s.txns, t, id);
      assert CreditsBack(s.entries, s.txns, id) == if IsReversed(s.txns, id) then 1 else 0;
    }
    forall i | 0 <= i < |s.txns| && t.original.Some? ensures s.txns[i].original != t.original {
      assert !IsReversed(s.txns, t.original.value);
    }
  }

  lemma CallKeepsReversals(s: State, c: Call)
    requires ReversalsOnce(s)
    ensures ReversalsOnce(Apply(s, c).0)
  {
    var s' := Apply(s, c).0;
    if s'.entries != s.entries {
      if IsTransfer(c) {
        TransferShape(s, c);
        RowKeepsReversals(s, Apply(s, c).1.txn, Postings(WorkOf(c), |s.txns|, s.clock), s');
      } else if c.Fund? {
        RowKeepsReversals(s, FundingRow(s, c.wallet, c.amount, c.reference),
          [Entry(c.wallet, |s.txns|, Credit, c.amount, Funding, s.clock)], s');
      } else {
        RowKeepsReversals(s, ReversalRow(s, c.original, c.wallet, c.amount, c.reference),
          Postings(BankReversal(c.wallet, c.amount), |s.txns|, s.clock), s');
      }
    }
  }

  lemma {:induction false} RunKeepsReversals(s: State, calls: seq<Call>)
    requires ReversalsOnce(s)
    ensures ReversalsOnce(Run(s, calls))
  {
    if calls != [] {
      RunKeepsReversals(s, calls[..|calls| - 1]);
      CallKeepsReversals(Run(s, calls[..|calls| - 1]), calls[|calls| - 1]);
    }
  }

  /** However often it is asked for, a transfer is credited back at most once, and exactly when it is marked reversed. */
  lemma ReversedOnce(s: State, calls: seq<Call>, id: nat)
    requires ReversalsOnce(s)
    ensures CreditsBack(Run(s, calls).entries, Run(s, calls).txns, id) == if IsReversed(Run(s, calls).txns, id) then 1 else 0
  {
    RunKeepsReversals(s, calls);
  }

  // ----- which refusal a call gets

  /** Something a path asks for, and what it answers when that is not so. */
  datatype Demand = Demand(met: bool, reason: Reason)

  predicate IsActive(s: State, w: WalletId) {
    w in s.accounts && s.accounts[w].active
  }

  /** Today's debits through the channel and the amount, against the tier's limit; a tier below 1 counts as 1. */
  predicate FitsToday(s: State, c: Call)
    requires IsTransfer(c)
  {
    && c.sender in s.accounts
    && var tier := s.accounts[c.sender].kyc.tier;
    UsedSince(s.entries, c.sender, TypeOf(c), TodayStart(s.clock)) + c.amount
      <= Kyc.TierLimit(if tier < 1 then 1 else tier,
                       if TypeOf(c) == TransferInternal then Kyc.FlowkeyToFlowkey else Kyc.FlowkeyToBank)
  }

  /** What each path asks for before it looks the key up or opens its database transaction, in its order. */
  function Demands(s: State, c: Call): seq<Demand>
    requires IsTransfer(c)
  {
    var known := Demand(c.sender in s.accounts, NotFound);
    var pin := Demand(c.sender in s.accounts && s.accounts[c.sender].hasPin, PinNotSet);
    var upp := Demand(c.sender in s.accounts && s.accounts[c.sender].hasUpp, PinNotSet);
    var fraud, secret, limit :=
      Demand(c.fraudOk, FraudBlocked), Demand(c.secretOk, WrongSecret), Demand(FitsToday(s, c), LimitReached);
    match c
    case SessionInternal(sender, recipient, _, _, _, _, _) =>
      [known, pin, Demand(IsActive(s, sender), Inactive), Demand(sender != recipient, SelfTransfer),
       Demand(recipient in s.accounts, RecipientNotFound), Demand(IsActive(s, recipient), RecipientInactive),
       fraud, secret, limit]
    case SessionBank(sender, _, _, _, _, _) => [known, pin, Demand(IsActive(s, sender), Inactive), fraud, limit, secret]
    case UidInternal(sender, recipient, _, _, _, _, _) =>
      [Demand(IsActive(s, sender), NotFound), upp, Demand(sender != recipient, SelfTransfer),
       Demand(IsActive(s, recipient), RecipientNotFound), fraud, secret, limit]
    case UidBank(sender, _, _, _, _, _) => [Demand(IsActive(s, sender), NotFound), upp, fraud, secret, limit]
  }

  /** What the database transaction asks for: the balance under the lock, then the tables' constraints. */
  function LateDemands(s: State, c: Call): seq<Demand>
    requires IsTransfer(c)
  {
    [Demand(Balance(s.entries, c.sender) >= c.amount, InsufficientBalance), Demand(CanPost(s, c), ConstraintViolated)]
  }

  /** The answer to the first demand that is not met. */
  function FirstUnmet(demands: seq<Demand>): Option<Reason> {
    if demands == [] then None
    else if !demands[0].met then Some(demands[0].reason)
    else FirstUnmet(demands[1..])
  }

  /** The key is the sender's own and stored, and the path looks it up. */
  predicate IsReplay(s: State, c: Call) {
    (c.SessionInternal? || c.SessionBank?) && exists i :: 0 <= i < |s.txns| && IsStored(s.txns[i], c.sender, c.key)
  }

  lemma {:induction false} FirstUnmetIs(demands: seq<Demand>, n: nat)
    requires n <= |demands| && forall i :: 0 <= i < n ==> demands[i].met
    requires n < |demands| ==> !demands[n].met
    ensures FirstUnmet(demands) == if n < |demands| then Some(demands[n].reason) else None
  {
    if n > 0 {
      FirstUnmetIs(demands[1..], n - 1);
    }
  }

  /** The refusals of the database transaction. */
  lemma LateRefusal(s: State, c: Call, fee: int)
    requires IsTransfer(c)
    ensures var late, (after, reply) := FirstUnmet(LateDemands(s, c)), Execute(s, WorkOf(c), fee, c.key, c.reference);
            if late.Some? then (after, reply) == (s, Rejected(late.value)) else reply.Done?
  {
    var d := LateDemands(s, c);
    FirstUnmetIs(d, if !d[0].met then 0 else if !d[1].met then 1 else 2);
  }

  /** What a call is to be refused for: its path's first unmet demand, or, unless it is a replay, the transaction's. */
  function Refusal(s: State, c: Call): Option<Reason>
    requires IsTransfer(c)
  {
    var early := FirstUnmet(Demands(s, c));
    if early.Some? then early else if IsReplay(s, c) then None else FirstUnmet(LateDemands(s, c))
  }

  lemma SessionInternalRefusal(s: State, c: Call)
    requires c.SessionInternal?
    ensures if Refusal(s, c).Some? then Apply(s, c) == (s, Rejected(Refusal(s, c).value)) else Apply(s, c).1.Done?
  {
    var d := Demands(s, c);
    FirstUnmetIs(d,
      if !d[0].met then 0 else if !d[1].met then 1 else if !d[2].met then 2 else
      if !d[3].met then 3 else if !d[4].met then 4 else if !d[5].met then 5 else
      if !d[6].met then 6 else if !d[7].met then 7 else if !d[8].met then 8 else 9);
    if c.sender in s.accounts {
      LateRefusal(s, c, BankFee(s.accounts[c.sender]));
      LateRefusal(s, c, 0);
    }
  }

  lemma SessionBankRefusal(s: State, c: Call)
    requires c.SessionBank?
    ensures if Refusal(s, c).Some? then Apply(s, c) == (s, Rejected(Refusal(s, c).value)) else Apply(s, c).1.Done?
  {
    var d := Demands(s, c);
    FirstUnmetIs(d,
      if !d[0].met then 0 else if !d[1].met then 1 else if !d[2].met then 2 else
      if !d[3].met then 3 else if !d[4].met then 4 else if !d[5].met then 5 else 6);
    if c.sender in s.accounts {
      LateRefusal(s, c, BankFee(s.accounts[c.sender]));
      LateRefusal(s, c, 0);
    }
  }

  lemma UidInternalRefusal(s: State, c: Call)
    requires c.UidInternal?
    ensures if Refusal(s, c).Some? then Apply(s, c) == (s, Rejected(Refusal(s, c).value)) else Apply(s, c).1.Done?
  {
    var d := Demands(s, c);
    FirstUnmetIs(d,
      if !d[0].met then 0 else if !d[1].met then 1 else if !d[2].met then 2 else
      if !d[3].met then 3 else if !d[4].met then 4 else if !d[5].met then 5 else
      if !d[6].met then 6 else 7);
    if c.sender in s.accounts {
      LateRefusal(s, c, BankFee(s.accounts[c.sender]));
      LateRefusal(s, c, 0);
    }
  }

  lemma UidBankRefusal(s: State, c: Call)
    requires c.UidBank?
    ensures if Refusal(s, c).Some? then Apply(s, c) == (s, Rejected(Refusal(s, c).value)) else Apply(s, c).1.Done?
  {
    var d := Demands(s, c);
    FirstUnmetIs(d,
      if !d[0].met then 0 else if !d[1].met then 1 else if !d[2].met then 2 else
      if !d[3].met then 3 else if !d[4].met then 4 else 5);
    if c.sender in s.accounts {
      LateRefusal(s, c, BankFee(s.accounts[c.sender]));
      LateRefusal(s, c, 0);
    }
  }

  /**
   On all four paths a transfer is answered if and only if nothing it is asked for is unmet, and is otherwise
   refused with the reason of the first unmet demand and changes nothing.
   */
  lemma RefusedForFirstUnmet(s: State, c: Call)
    requires IsTransfer(c)
    ensures if Refusal(s, c).Some? then Apply(s, c) == (s, Rejected(Refusal(s, c).value)) else Apply(s, c).1.Done?
  {
    match c
    case SessionInternal(_, _, _, _, _, _, _) => SessionInternalRefusal(s, c);
    case SessionBank(_, _, _, _, _, _) => SessionBankRefusal(s, c);
    case UidInternal(_, _, _, _, _, _, _) => UidInternalRefusal(s, c);
    case UidBank(_, _, _, _, _, _) => UidBankRefusal(s, c);
  }

  /** The two calls that move no money: an upgrade goes to the wallet's KYC record at this moment, and time passes. */
  lemma OtherCallsAre(s: State, c: Call)
    requires c.UpgradeTier? || c.Wait?
    ensures var (after, reply) := Apply(s, c);
            && reply == Quiet && after.txns == s.txns && after.entries == s.entries
            && after.clock == s.clock + (if c.Wait? then c.ms else 0)
            && after.accounts.Keys == s.accounts.Keys
            && forall w :: w in s.accounts ==>
                 var was, now := s.accounts[w], after.accounts[w];
                 && now.active == was.active && now.hasPin == was.hasPin && now.hasUpp == was.hasUpp
                 && now.kyc == if c.UpgradeTier? && w == c.wallet
                    then Kyc.Request(was.kyc, Kyc.Try(c.target, c.verdict, s.clock, c.cooldown)).0
                    else was.kyc
  {
  }

  // ----- what each call does to the balances

  /** The call was answered with a row that was not there before. */
  predicate IsPosted(s: State, c: Call) {
    Apply(s, c).1.Done? && |Apply(s, c).0.txns| > |s.txns|
  }

  /** What a posted call is for, wallet by wallet. */
  function Due(c: Call, w: WalletId): int {
    match c
    case SessionInternal(sender, recipient, amount, _, _, _, _) =>
      (if w == recipient then amount else 0) - (if w == sender then amount else 0)
    case UidInternal(sender, recipient, amount, _, _, _, _) =>
      (if w == recipient then amount else 0) - (if w == sender then amount else 0)
    case SessionBank(sender, amount, _, _, _, _) => if w == sender then -amount else 0
    case UidBank(sender, amount, _, _, _, _) => if w == sender then -amount else 0
    case Fund(wallet, amount, _) => if w == wallet then amount else 0
    case Reverse(_, wallet, amount, _) => if w == wallet then amount else 0
    case UpgradeTier(_, _, _, _) => 0
    case Wait(_) => 0
  }

  /**
   For every call and every wallet: a posted transfer moves its amount from the sender to the recipient, or out;
   posted funding or a reversal adds its amount to the wallet it names; and any other call moves no balance.
   */
  lemma CallMovesBalance(s: State, c: Call, w: WalletId)
    ensures Balance(Apply(s, c).0.entries, w) == Balance(s.entries, w) + if IsPosted(s, c) then Due(c, w) else 0
  {
    var after := Apply(s, c).0;
    if IsTransfer(c) {
      TransferShape(s, c);
      LedgerProofs.PostingsEffect(s.entries, WorkOf(c), |s.txns|, s.clock, w);
    } else if c.Fund? {
      LedgerProofs.BalanceAppend(s.entries, Entry(c.wallet, |s.txns|, Credit, c.amount, Funding, s.clock), w);
    } else if c.Reverse? && after != s {
      LedgerProofs.BalanceAppend(s.entries, after.entries[|s.entries|], w);
    }
  }

  /** What the posted calls of a run come to for one wallet. */
  function DueOver(s: State, calls: seq<Call>, w: WalletId): int {
    if calls == [] then 0
    else
      var n := |calls| - 1;
      DueOver(s, calls[..n], w) + if IsPosted(Run(s, calls[..n]), calls[n]) then Due(calls[n], w) else 0
  }

  /** Over any calls a wallet's balance changes by what the posted ones are for, and by nothing else. */
  lemma {:induction false} BalanceIsWhatWasPosted(s: State, calls: seq<Call>, w: WalletId)
    ensures Balance(Run(s, calls).entries, w) == Balance(s.entries, w) + DueOver(s, calls, w)
  {
    if calls != [] {
      BalanceIsWhatWasPosted(s, calls[..|calls| - 1], w);
      CallMovesBalance(Run(s, calls[..|calls| - 1]), calls[|calls| - 1], w);
    }
  }

  /** The random keys of funding and reversal rows are new. */
  ghost predicate SystemKeysFit(txns: seq<Txn>) {
    forall i :: 0 <= i < |txns| && txns[i].key.System? ==> txns[i].key.n < |txns|
  }

  lemma CallKeepsSystemKeys(s: State, c: Call)
    requires SystemKeysFit(s.txns)
    ensures SystemKeysFit(Apply(s, c).0.txns)
  {
    if IsTransfer(c) {
      TransferShape(s, c);
    }
  }

  lemma {:induction false} RunKeepsSystemKeys(s: State, calls: seq<Call>)
    requires SystemKeysFit(s.txns)
    ensures SystemKeysFit(Run(s, calls).txns)
  {
    if calls != [] {
      RunKeepsSystemKeys(s, calls[..|calls| - 1]);
      CallKeepsSystemKeys(Run(s, calls[..|calls| - 1]), calls[|calls| - 1]);
    }
  }

  /**
   After any calls, funding and reversals are posted exactly when the amount is positive and the reference new,
   and a reversal only of a transaction that is there and has not been reversed. The row says what the call said.
   */
  lemma {:induction false} CreditPostedIff(s: State, calls: seq<Call>, c: Call)
    requires SystemKeysFit(s.txns) && (c.Fund? || c.Reverse?)
    ensures var before := Run(s, calls);
            var (after, reply) := Apply(before, c);
            && (IsPosted(before, c) <==>
                  && c.amount > 0
                  && (forall i :: 0 <= i < |before.txns| ==> before.txns[i].reference != c.reference)
                  && (c.Reverse? ==> c.original < |before.txns|)
                  && (c.Reverse? ==> forall i :: 0 <= i < |before.txns| ==> before.txns[i].original != Some(c.original)))
            && (!IsPosted(before, c) ==> after == before && reply == Rejected(ConstraintViolated))
            && (IsPosted(before, c) ==>
                  && reply.id == |before.txns| && after.txns == before.txns + [reply.txn]
                  && after.accounts == before.accounts && after.clock == before.clock
                  && reply.txn.amount == reply.txn.netAmount == c.amount && reply.txn.fee == 0
                  && reply.txn.reference == c.reference && reply.txn.receiver == Some(c.wallet) && reply.txn.sender == None
                  && reply.txn.txnType == (if c.Fund? then Funding else Reversal)
                  && reply.txn.original == if c.Reverse? then Some(c.original) else None)
  {
    RunKeepsSystemKeys(s, calls);
  }

  // ----- a replay that is refused

  const TIER_ONE: Account := Account(Kyc.Record(1, []), true, true, true)

  const FUNDED: State := State(map[0 := TIER_ONE, 1 := TIER_ONE],
    [Txn(Funding, 9000000, 0, 9000000, "F", System(0), None, Some(0), None)],
    [Entry(0, 0, Credit, 9000000, Funding, 0)], 0)

  const THREE_MILLION: Call := SessionInternal(0, 1, 3000000, "k", "R", true, true)

  const CREDIT: Entry := Entry(0, 0, Credit, 9000000, Funding, 0)

  lemma FundedBalance()
    ensures Balance(FUNDED.entries, 0) == 9000000
  {
    assert [] + [CREDIT] == [CREDIT] == FUNDED.entries;
    assert Balance([], 0) == 0;
    LedgerProofs.BalanceAppend([], CREDIT, 0);
  }

  lemma FundedIsUnused()
    ensures UsedSince(FUNDED.entries, 0, TransferInternal, 0) == 0
    ensures FindStored(FUNDED.txns, 0, "k") == None
  {
    assert FUNDED.entries == [] + [CREDIT];
    UsedAppend([], CREDIT, 0, TransferInternal, 0);
  }

  lemma FundedKeys()
    ensures KeysAndDebits(FUNDED)
  {
    assert FUNDED.entries == [] + [CREDIT];
    forall i: nat ensures DebitsOf(FUNDED.entries, i) == 0 {
      DebitsAppend([], CREDIT, i);
    }
  }

  /** At tier 1 an accepted transfer of 30,000 naira cannot be replayed the same day. */
  lemma ReplayCanHitTheLimit()
    ensures Apply(FUNDED, THREE_MILLION).1.Done?
    ensures Apply(Apply(FUNDED, THREE_MILLION).0, THREE_MILLION).1 == Rejected(LimitReached)
  {
    FundedBalance();
    FundedIsUnused();
    FundedKeys();
    NewTransferAcceptedIff(FUNDED, THREE_MILLION);
    ImmediateReplayAnsweredIff(FUNDED, THREE_MILLION);
  }
}
