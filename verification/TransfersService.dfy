/** The transfer service over mutable tables: each method performs one call of TransfersModel. */
module TransfersService {
  import opened Common
  import opened LedgerEntries
  import opened TransfersModel
  import Kyc

  class TransferStore {
    var accounts: map<WalletId, Account>
    var txns: seq<Txn>
    var entries: seq<Entry>
    var clock: int

    ghost function View(): State
      reads this
    {
      State(accounts, txns, entries, clock)
    }

    constructor (initial: map<WalletId, Account>, now: int)
      ensures View() == State(initial, [], [], now)
    {
      accounts, txns, entries, clock := initial, [], [], now;
    }

    method CheckKycDailyLimit(w: WalletId, amount: int, t: TxnType, limit: int) returns (allowed: bool)
      requires w in accounts && limit == DailyLimit(accounts[w], t)
      ensures allowed <==> WithinDailyLimit(View(), w, amount, t)
    {
      var todayStart := clock / DAY_MS * DAY_MS;
      var used := UsedSince(entries, w, t, todayStart);
      allowed := used + amount <= limit;
    }

    /** transaction.create and ledgerEntry.create, rolled back together when a constraint fails. */
    method InsertTransfer(t: Txn, work: Work) returns (r: Reply)
      modifies this`txns, this`entries
      ensures (View(), r) == Insert(old(View()), t, work)
    {
      if !RowAllowed(txns, t) {
        return Rejected(ConstraintViolated);
      }
      r := Done(|txns|, t);
      entries := entries + Postings(work, |txns|, clock);
      txns := txns + [t];
    }

    method ExecuteTransfer(work: Work, fee: int, key: string, reference: string) returns (r: Reply)
      requires !work.BankReversal?
      modifies this`txns, this`entries
      ensures (View(), r) == Execute(old(View()), work, fee, key, reference)
    {
      var balance := Balance(entries, work.sender);
      if balance < work.amount {
        return Rejected(InsufficientBalance);
      }
      var netAmount := work.amount - fee;
      match work {
        case InternalTransfer(sender, recipient, amount) =>
          r := InsertTransfer(
            Txn(TransferInternal, amount, fee, netAmount, reference, Client(key), Some(sender), Some(recipient), None),
            work);
        case BankTransfer(sender, amount) =>
          r := InsertTransfer(
            Txn(TransferBank, amount, fee, netAmount, reference, Client(key), Some(sender), None, None), work);
      }
    }

    method ExecuteInternalTransfer(
        sender: WalletId, recipient: WalletId, amount: int, key: string, reference: string, fraudOk: bool, pinOk: bool)
      returns (r: Reply)
      modifies this
      ensures (View(), r) == Apply(old(View()), SessionInternal(sender, recipient, amount, key, reference, fraudOk, pinOk))
    {
      if sender !in accounts { return Rejected(NotFound); }
      if !accounts[sender].hasPin { return Rejected(PinNotSet); }
      if !accounts[sender].active { return Rejected(Inactive); }
      if sender == recipient { return Rejected(SelfTransfer); }
      if recipient !in accounts { return Rejected(RecipientNotFound); }
      if !accounts[recipient].active { return Rejected(RecipientInactive); }
      if !fraudOk { return Rejected(FraudBlocked); }
      if !pinOk { return Rejected(WrongSecret); }
      var allowed := CheckKycDailyLimit(sender, amount, TransferInternal, DailyLimit(accounts[sender], TransferInternal));
      if !allowed { return Rejected(LimitReached); }
      var existing := FindStored(txns, sender, key);
      if existing.Some? {
        return Done(existing.value, txns[existing.value]);
      }
      r := ExecuteTransfer(InternalTransfer(sender, recipient, amount), 0, key, reference);
    }

    method InitiateBankTransfer(
        sender: WalletId, amount: int, key: string, reference: string, fraudOk: bool, pinOk: bool)
      returns (r: Reply)
      modifies this
      ensures (View(), r) == Apply(old(View()), SessionBank(sender, amount, key, reference, fraudOk, pinOk))
    {
      if sender !in accounts { return Rejected(NotFound); }
      if !accounts[sender].hasPin { return Rejected(PinNotSet); }
      if !accounts[sender].active { return Rejected(Inactive); }
      if !fraudOk { return Rejected(FraudBlocked); }
      var allowed := CheckKycDailyLimit(sender, amount, TransferBank, DailyLimit(accounts[sender], TransferBank));
      if !allowed { return Rejected(LimitReached); }
      if !pinOk { return Rejected(WrongSecret); }
      var existing := FindStored(txns, sender, key);
      if existing.Some? {
        return Done(existing.value, txns[existing.value]);
      }
      r := ExecuteTransfer(BankTransfer(sender, amount), BankFee(accounts[sender]), key, reference);
    }

    method ExecuteUidInternalTransfer(
        sender: WalletId, recipient: WalletId, amount: int, key: string, reference: string, fraudOk: bool, uppOk: bool)
      returns (r: Reply)
      modifies this
      ensures (View(), r) == Apply(old(View()), UidInternal(sender, recipient, amount, key, reference, fraudOk, uppOk))
    {
      if sender !in accounts || !accounts[sender].active { return Rejected(NotFound); }
      if !accounts[sender].hasUpp { return Rejected(PinNotSet); }
      if sender == recipient { return Rejected(SelfTransfer); }
      if recipient !in accounts || !accounts[recipient].active { return Rejected(RecipientNotFound); }
      if !fraudOk { return Rejected(FraudBlocked); }
      if !uppOk { return Rejected(WrongSecret); }
      var allowed := CheckKycDailyLimit(sender, amount, TransferInternal, DailyLimit(accounts[sender], TransferInternal));
      if !allowed { return Rejected(LimitReached); }
      r := ExecuteTransfer(InternalTransfer(sender, recipient, amount), 0, key, reference);
    }

    method ExecuteUidBankTransfer(
        sender: WalletId, amount: int, key: string, reference: string, fraudOk: bool, uppOk: bool)
      returns (r: Reply)
      modifies this
      ensures (View(), r) == Apply(old(View()), UidBank(sender, amount, key, reference, fraudOk, uppOk))
    {
      if sender !in accounts || !accounts[sender].active { return Rejected(NotFound); }
      if !accounts[sender].hasUpp { return Rejected(PinNotSet); }
      if !fraudOk { return Rejected(FraudBlocked); }
      if !uppOk { return Rejected(WrongSecret); }
      var allowed := CheckKycDailyLimit(sender, amount, TransferBank, DailyLimit(accounts[sender], TransferBank));
      if !allowed { return Rejected(LimitReached); }
      r := ExecuteTransfer(BankTransfer(sender, amount), BankFee(accounts[sender]), key, reference);
    }

    /** Transaction, credit, status and reversals row, or none of them. */
    method ReverseTransfer(original: nat, owner: WalletId, amount: int, reference: string) returns (r: Reply)
      modifies this
      ensures (View(), r) == Apply(old(View()), Reverse(original, owner, amount, reference))
    {
      r := InsertTransfer(
        Txn(Reversal, amount, 0, amount, reference, System(|txns|), None, Some(owner), Some(original)),
        BankReversal(owner, amount));
    }

    method UpgradeKyc(w: WalletId, target: Kyc.Target, v: Kyc.Verdict, cooldown: nat)
      modifies this`accounts
      ensures View() == Apply(old(View()), UpgradeTier(w, target, v, cooldown)).0
    {
      if w in accounts {
        var upgraded := Kyc.Upgrade(accounts[w].kyc, target, v, clock, cooldown);
        accounts := accounts[w := accounts[w].(kyc := upgraded.0)];
      }
    }
  }
}
