/** The append-only ledger table and what each kind of transaction writes to it. */
module LedgerEntries {
  type WalletId = nat

  datatype Kind = Credit | Debit

  /** The type column of the transaction an entry belongs to; the entries of bills belong to none. */
  datatype TxnType = TransferInternal | TransferBank | Funding | Reversal | BillPayment

  datatype Entry = Entry(wallet: WalletId, txn: nat, kind: Kind, amount: int, txnType: TxnType, createdAt: int)

  /**
   InternalTransfer is executeInternalTransfer and executeUidInternalTransfer, BankTransfer is
   initiateBankTransfer and executeUidBankTransfer, BankReversal is reverseBankTransfer: within
   their database transactions the session and the Universal ID variants do the same.
   */
  datatype Work =
    | InternalTransfer(sender: WalletId, recipient: WalletId, amount: int)
    | BankTransfer(sender: WalletId, amount: int)
    | BankReversal(owner: WalletId, amount: int)

  /** SELECT SUM(amount) over a wallet's entries of one type, null read as zero. */
  function SumOf(entries: seq<Entry>, w: WalletId, kind: Kind): int {
    if entries == [] then 0
    else
      var e := entries[|entries| - 1];
      SumOf(entries[..|entries| - 1], w, kind) + if e.wallet == w && e.kind == kind then e.amount else 0
  }

  /** getBalanceInLock: credits less debits. */
  function Balance(entries: seq<Entry>, w: WalletId): int {
    SumOf(entries, w, Credit) - SumOf(entries, w, Debit)
  }

  /** The entries a transaction commits. */
  function Postings(work: Work, txn: nat, now: int): seq<Entry> {
    match work
    case InternalTransfer(sender, recipient, amount) =>
      var fee := 0;
      [Entry(sender, txn, Debit, amount, TransferInternal, now),
       Entry(recipient, txn, Credit, amount - fee, TransferInternal, now)]
    case BankTransfer(sender, amount) => [Entry(sender, txn, Debit, amount, TransferBank, now)]
    case BankReversal(owner, amount) => [Entry(owner, txn, Credit, amount, Reversal, now)]
  }
}
