/**
 The ledger under concurrent transfers. A transfer's database transaction locks its wallet rows,
 reads the sender's balance, and appends its entries at commit; a deposit appends a credit with no
 lock at all, and so do bill purchases their debits and bill refunds their credits. A disabled step
 changes nothing.
 */
module LedgerModel {
  import opened LedgerEntries

  type Pid = nat

  datatype Phase = Locking | Checked(balance: int)

  datatype Proc = Proc(work: Work, phase: Phase)

  /** A bill as far as the ledger goes: what it debited, and whether that has been credited back. */
  datatype Bill = Bill(wallet: WalletId, amount: int, refunded: bool)

  /** `nextTxn` numbers the transactions, and the entries of bills, which have none. */
  datatype Db = Db(
    entries: seq<Entry>, nextTxn: nat, locks: map<WalletId, Pid>, procs: map<Pid, Proc>, bills: seq<Bill>)

  /** The wallet rows a transaction selects FOR UPDATE. */
  function LockSet(work: Work): set<WalletId> {
    match work
    case InternalTransfer(sender, recipient, _) => {sender, recipient}
    case BankTransfer(sender, _) => {sender}
    case BankReversal(owner, _) => {owner}
  }

  predicate HoldsLocks(db: Db, p: Pid, work: Work) {
    forall w :: w in LockSet(work) ==> w in db.locks && db.locks[w] == p
  }

  datatype Action =
    | Begin(p: Pid, work: Work)
    | Lock(p: Pid, w: WalletId)
    | Check(p: Pid)
    | Commit(p: Pid, now: int)
    | Abort(p: Pid)
    | Deposit(w: WalletId, amount: int, now: int)
    | PayBill(w: WalletId, amount: int, now: int)
    | RefundBill(bill: nat, now: int)

  /** Ends a transaction and frees its rows. */
  function Release(db: Db, p: Pid): Db {
    db.(locks := map w | w in db.locks && db.locks[w] != p :: db.locks[w], procs := db.procs - {p})
  }

  /** A transfer to oneself is refused before any transaction starts. */
  function StepBegin(db: Db, p: Pid, work: Work): Db {
    if p in db.procs || (work.InternalTransfer? && work.sender == work.recipient) then db
    else db.(procs := db.procs[p := Proc(work, Locking)])
  }

  /** Rows are locked one at a time, in any order; a held row must be waited for. */
  function StepLock(db: Db, p: Pid, w: WalletId): Db {
    if p !in db.procs || w !in LockSet(db.procs[p].work) || w in db.locks then db
    else db.(locks := db.locks[w := p])
  }

  /** The balance read under the lock; a sender who cannot pay aborts. */
  function StepCheck(db: Db, p: Pid): Db {
    if p !in db.procs || db.procs[p].phase != Locking || db.procs[p].work.BankReversal?
       || !HoldsLocks(db, p, db.procs[p].work) then db
    else
      var work := db.procs[p].work;
      var balance := Balance(db.entries, work.sender);
      if balance < work.amount then Release(db, p)
      else db.(procs := db.procs[p := Proc(work, Checked(balance))])
  }

  predicate CanCommit(db: Db, p: Pid) {
    && p in db.procs
    && HoldsLocks(db, p, db.procs[p].work)
    && (db.procs[p].work.BankReversal? || db.procs[p].phase.Checked?)
  }

  /** The CHECK constraint on amounts rejects the whole transaction when it is not positive. */
  function StepCommit(db: Db, p: Pid, now: int): Db {
    if !CanCommit(db, p) then db
    else if db.procs[p].work.amount <= 0 then Release(db, p)
    else
      Release(db, p).(
        entries := db.entries + Postings(db.procs[p].work, db.nextTxn, now),
        nextTxn := db.nextTxn + 1)
  }

  /** creditWallet's transaction takes no row lock. */
  function StepDeposit(db: Db, w: WalletId, amount: int, now: int): Db {
    if amount <= 0 then db
    else
      db.(entries := db.entries + [Entry(w, db.nextTxn, Credit, amount, Funding, now)], nextTxn := db.nextTxn + 1)
  }

  /** The ledger debit of a bill purchase: it follows available_balance, and asks the ledger nothing. */
  function StepPayBill(db: Db, w: WalletId, amount: int, now: int): Db {
    if amount <= 0 then db
    else
      db.(entries := db.entries + [Entry(w, db.nextTxn, Debit, amount, BillPayment, now)], nextTxn := db.nextTxn + 1,
          bills := db.bills + [Bill(w, amount, false)])
  }

  /** The ledger credit of a bill's one refund. */
  function StepRefundBill(db: Db, bill: nat, now: int): Db {
    if bill >= |db.bills| || db.bills[bill].refunded then db
    else
      var b := db.bills[bill];
      db.(entries := db.entries + [Entry(b.wallet, db.nextTxn, Credit, b.amount, BillPayment, now)],
          nextTxn := db.nextTxn + 1, bills := db.bills[bill := b.(refunded := true)])
  }

  function Step(db: Db, a: Action): Db {
    match a
    case Begin(p, work) => StepBegin(db, p, work)
    case Lock(p, w) => StepLock(db, p, w)
    case Check(p) => StepCheck(db, p)
    case Commit(p, now) => StepCommit(db, p, now)
    case Abort(p) => Release(db, p)
    case Deposit(w, amount, now) => StepDeposit(db, w, amount, now)
    case PayBill(w, amount, now) => StepPayBill(db, w, amount, now)
    case RefundBill(bill, now) => StepRefundBill(db, bill, now)
  }

  function Run(db: Db, actions: seq<Action>): Db {
    if actions == [] then db
    else Step(Run(db, actions[..|actions| - 1]), actions[|actions| - 1])
  }

  /** No transaction under way. */
  predicate Quiet(db: Db) {
    db.locks == map[] && db.procs == map[]
  }
}
