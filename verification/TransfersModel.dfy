/**
 Transfers call by call: session transfers, Universal ID transfers, funding, reversals and tier
 upgrades, each with the source's order of guards. The fraud check and the secret's check are
 inputs; FraudVelocity and Lockout model them.
 */
module TransfersModel {
  import opened Common
  import opened LedgerEntries
  import Kyc

  const DAY_MS := 86400000

  /** A client's idempotency key, or the random one a funding or reversal row gets. */
  datatype Key = Client(k: string) | System(n: nat)

  datatype Account = Account(kyc: Kyc.Record, active: bool, hasPin: bool, hasUpp: bool)

  /**
   A transactions row. `original` is what the reversals table says of it: the transaction it reverses,
   whose status becomes 'reversed' with it.
   */
  datatype Txn = Txn(
    txnType: TxnType, amount: int, fee: int, netAmount: int, reference: string, key: Key,
    sender: Option<WalletId>, receiver: Option<WalletId>, original: Option<nat>)

  /** Each user owns one wallet, so accounts are named by their wallet. Row n of txns has id n. */
  datatype State = State(accounts: map<WalletId, Account>, txns: seq<Txn>, entries: seq<Entry>, clock: int)

  datatype Reason =
    | NotFound | PinNotSet | Inactive | SelfTransfer | RecipientNotFound | RecipientInactive
    | FraudBlocked | WrongSecret | LimitReached | InsufficientBalance | ConstraintViolated

  datatype Reply = Rejected(reason: Reason) | Done(id: nat, txn: Txn) | Quiet

  datatype Call =
    | SessionInternal(sender: WalletId, recipient: WalletId, amount: int, key: string, reference: string,
                      fraudOk: bool, secretOk: bool)
    | SessionBank(sender: WalletId, amount: int, key: string, reference: string, fraudOk: bool, secretOk: bool)
    | UidInternal(sender: WalletId, recipient: WalletId, amount: int, key: string, reference: string,
                  fraudOk: bool, secretOk: bool)
    | UidBank(sender: WalletId, amount: int, key: string, reference: string, fraudOk: bool, secretOk: bool)
    | Fund(wallet: WalletId, amount: int, reference: string)
    | Reverse(original: nat, wallet: WalletId, amount: int, reference: string)
    | UpgradeTier(wallet: WalletId, target: Kyc.Target, verdict: Kyc.Verdict, cooldown: nat)
    | Wait(ms: nat)

  // ----- the daily limit

  predicate CountsAgainst(e: Entry, w: WalletId, t: TxnType) {
    e.wallet == w && e.kind == Debit && e.txnType == t
  }

  /** What a wallet has debited through a channel since a moment. */
  function UsedSince(entries: seq<Entry>, w: WalletId, t: TxnType, start: int): int {
    if entries == [] then 0
    else
      var e := entries[|entries| - 1];
      UsedSince(entries[..|entries| - 1], w, t, start)
      + if CountsAgainst(e, w, t) && e.createdAt >= start then e.amount else 0
  }

  function TodayStart(now: int): int {
    now / DAY_MS * DAY_MS
  }

  function ChannelOf(t: TxnType): Kyc.Channel {
    if t == TransferInternal then Kyc.FlowkeyToFlowkey else Kyc.FlowkeyToBank
  }

  function DailyLimit(account: Account, t: TxnType): int {
    Kyc.TierLimit(Kyc.CurrentTier(account.kyc.tier), ChannelOf(t))
  }

  predicate WithinDailyLimit(s: State, w: WalletId, amount: int, t: TxnType)
    requires w in s.accounts
  {
    UsedSince(s.entries, w, t, TodayStart(s.clock)) + amount <= DailyLimit(s.accounts[w], t)
  }

  // ----- idempotency

  predicate IsStored(t: Txn, sender: WalletId, key: string) {
    t.key == Client(key) && t.sender == Some(sender)
  }

  /** The stored transaction of a sender and key, if there is one. */
  function FindStored(txns: seq<Txn>, sender: WalletId, key: string): (r: Option<nat>)
    ensures r.Some? ==> r.value < |txns| && IsStored(txns[r.value], sender, key)
    ensures r.None? ==> forall i :: 0 <= i < |txns| ==> !IsStored(txns[i], sender, key)
  {
    if txns == [] then None
    else
      var n := |txns| - 1;
      var earlier := FindStored(txns[..n], sender, key);
      if earlier.Some? then earlier
      else if IsStored(txns[n], sender, key) then Some(n)
      else None
  }

  predicate IsReversed(txns: seq<Txn>, id: nat) {
    exists i :: 0 <= i < |txns| && txns[i].original == Some(id)
  }

  /**
   The unique columns and the amount check of the transactions table; and of the reversals table, whose
   original must exist and is unique.
   */
  predicate RowAllowed(txns: seq<Txn>, t: Txn) {
    && t.amount > 0
    && (forall i :: 0 <= i < |txns| ==> txns[i].key != t.key && txns[i].reference != t.reference)
    && (t.original.Some? ==> t.original.value < |txns| && !IsReversed(txns, t.original.value))
  }

  function Insert(s: State, t: Txn, work: Work): (State, Reply) {
    if !RowAllowed(s.txns, t) then (s, Rejected(ConstraintViolated))
    else
      (s.(txns := s.txns + [t], entries := s.entries + Postings(work, |s.txns|, s.clock)), Done(|s.txns|, t))
  }

  /** The database transaction of a transfer: balance under the lock, row, entries. */
  function Execute(s: State, work: Work, fee: int, key: string, reference: string): (State, Reply)
    requires !work.BankReversal?
  {
    if Balance(s.entries, work.sender) < work.amount then (s, Rejected(InsufficientBalance))
    else
      var t := Txn(
        if work.InternalTransfer? then TransferInternal else TransferBank, work.amount, fee, work.amount - fee,
        reference, Client(key), Some(work.sender),
        if work.InternalTransfer? then Some(work.recipient) else None, None);
      Insert(s, t, work)
  }

  function BankFee(account: Account): int {
    if Kyc.CurrentTier(account.kyc.tier) == 1 then 5000 else 0
  }

  /** executeInternalTransfer */
  function SessionInternalTransfer(s: State, c: Call): (State, Reply)
    requires c.SessionInternal?
  {
    if c.sender !in s.accounts then (s, Rejected(NotFound))
    else if !s.accounts[c.sender].hasPin then (s, Rejected(PinNotSet))
    else if !s.accounts[c.sender].active then (s, Rejected(Inactive))
    else if c.sender == c.recipient then (s, Rejected(SelfTransfer))
    else if c.recipient !in s.accounts then (s, Rejected(RecipientNotFound))
    else if !s.accounts[c.recipient].active then (s, Rejected(RecipientInactive))
    else if !c.fraudOk then (s, Rejected(FraudBlocked))
    else if !c.secretOk then (s, Rejected(WrongSecret))
    else if !WithinDailyLimit(s, c.sender, c.amount, TransferInternal) then (s, Rejected(LimitReached))
    else
      var stored := FindStored(s.txns, c.sender, c.key);
      if stored.Some? then (s, Done(stored.value, s.txns[stored.value]))
      else Execute(s, InternalTransfer(c.sender, c.recipient, c.amount), 0, c.key, c.reference)
  }

  /** initiateBankTransfer */
  function SessionBankTransfer(s: State, c: Call): (State, Reply)
    requires c.SessionBank?
  {
    if c.sender !in s.accounts then (s, Rejected(NotFound))
    else if !s.accounts[c.sender].hasPin then (s, Rejected(PinNotSet))
    else if !s.accounts[c.sender].active then (s, Rejected(Inactive))
    else if !c.fraudOk then (s, Rejected(FraudBlocked))
    else if !WithinDailyLimit(s, c.sender, c.amount, TransferBank) then (s, Rejected(LimitReached))
    else if !c.secretOk then (s, Rejected(WrongSecret))
    else
      var stored := FindStored(s.txns, c.sender, c.key);
      if stored.Some? then (s, Done(stored.value, s.txns[stored.value]))
      else Execute(s, BankTransfer(c.sender, c.amount), BankFee(s.accounts[c.sender]), c.key, c.reference)
  }

  /** executeUidInternalTransfer: no lookup by key. */
  function UidInternalTransfer(s: State, c: Call): (State, Reply)
    requires c.UidInternal?
  {
    if c.sender !in s.accounts || !s.accounts[c.sender].active then (s, Rejected(NotFound))
    else if !s.accounts[c.sender].hasUpp then (s, Rejected(PinNotSet))
    else if c.sender == c.recipient then (s, Rejected(SelfTransfer))
    else if c.recipient !in s.accounts || !s.accounts[c.recipient].active then (s, Rejected(RecipientNotFound))
    else if !c.fraudOk then (s, Rejected(FraudBlocked))
    else if !c.secretOk then (s, Rejected(WrongSecret))
    else if !WithinDailyLimit(s, c.sender, c.amount, TransferInternal) then (s, Rejected(LimitReached))
    else Execute(s, InternalTransfer(c.sender, c.recipient, c.amount), 0, c.key, c.reference)
  }

  /** executeUidBankTransfer */
  function UidBankTransfer(s: State, c: Call): (State, Reply)
    requires c.UidBank?
  {
    if c.sender !in s.accounts || !s.accounts[c.sender].active then (s, Rejected(NotFound))
    else if !s.accounts[c.sender].hasUpp then (s, Rejected(PinNotSet))
    else if !c.fraudOk then (s, Rejected(FraudBlocked))
    else if !c.secretOk then (s, Rejected(WrongSecret))
    else if !WithinDailyLimit(s, c.sender, c.amount, TransferBank) then (s, Rejected(LimitReached))
    else Execute(s, BankTransfer(c.sender, c.amount), BankFee(s.accounts[c.sender]), c.key, c.reference)
  }

  /** The row creditWallet writes. */
  function FundingRow(s: State, w: WalletId, amount: int, reference: string): Txn {
    Txn(Funding, amount, 0, amount, reference, System(|s.txns|), None, Some(w), None)
  }

  function FundWallet(s: State, w: WalletId, amount: int, reference: string): (State, Reply) {
    var t := FundingRow(s, w, amount, reference);
    if !RowAllowed(s.txns, t) then (s, Rejected(ConstraintViolated))
    else
      (s.(txns := s.txns + [t], entries := s.entries + [Entry(w, |s.txns|, Credit, amount, Funding, s.clock)]),
       Done(|s.txns|, t))
  }

  /** The row reverseBankTransfer writes, with its entry in the reversals table. */
  function ReversalRow(s: State, original: nat, w: WalletId, amount: int, reference: string): Txn {
    Txn(Reversal, amount, 0, amount, reference, System(|s.txns|), None, Some(w), Some(original))
  }

  function ReverseBankTransfer(s: State, original: nat, w: WalletId, amount: int, reference: string): (State, Reply) {
    Insert(s, ReversalRow(s, original, w, amount, reference), BankReversal(w, amount))
  }

  function RaiseTier(s: State, w: WalletId, target: Kyc.Target, v: Kyc.Verdict, cooldown: nat): State {
    if w !in s.accounts then s
    else
      var account := s.accounts[w];
      s.(accounts := s.accounts[w := account.(kyc := Kyc.Upgrade(account.kyc, target, v, s.clock, cooldown).0)])
  }

  function Apply(s: State, c: Call): (State, Reply) {
    match c
    case SessionInternal(_, _, _, _, _, _, _) => SessionInternalTransfer(s, c)
    case SessionBank(_, _, _, _, _, _) => SessionBankTransfer(s, c)
    case UidInternal(_, _, _, _, _, _, _) => UidInternalTransfer(s, c)
    case UidBank(_, _, _, _, _, _) => UidBankTransfer(s, c)
    case Fund(w, amount, reference) => FundWallet(s, w, amount, reference)
    case Reverse(original, w, amount, reference) => ReverseBankTransfer(s, original, w, amount, reference)
    case UpgradeTier(w, target, v, cooldown) => (RaiseTier(s, w, target, v, cooldown), Quiet)
    case Wait(ms) => (s.(clock := s.clock + ms), Quiet)
  }

  function Run(s: State, calls: seq<Call>): State {
    if calls == [] then s
    else Apply(Run(s, calls[..|calls| - 1]), calls[|calls| - 1]).0
  }

  predicate IsTransfer(c: Call) {
    c.SessionInternal? || c.SessionBank? || c.UidInternal? || c.UidBank?
  }

  function TypeOf(c: Call): TxnType
    requires IsTransfer(c)
  {
    if c.SessionInternal? || c.UidInternal? then TransferInternal else TransferBank
  }

  function WorkOf(c: Call): Work
    requires IsTransfer(c)
  {
    if TypeOf(c) == TransferInternal then InternalTransfer(c.sender, c.recipient, c.amount)
    else BankTransfer(c.sender, c.amount)
  }
}
