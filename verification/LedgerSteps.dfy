/** What each step of the ledger does to every wallet, and which transactions can be past their check together. */
module LedgerSteps {
  import opened LedgerEntries
  import opened LedgerModel
  import opened LedgerProofs

  // ----- a transaction locks what it writes

  /** The transaction's entries touch this wallet. */
  ghost predicate Writes(work: Work, w: WalletId) {
    exists i :: 0 <= i < |Postings(work, 0, 0)| && Postings(work, 0, 0)[i].wallet == w
  }

  lemma LocksWhatItWrites(work: Work, w: WalletId)
    ensures w in LockSet(work) <==> Writes(work, w)
  {
    var ps := Postings(work, 0, 0);
    assert ps[0].wallet in LockSet(work);
    assert work.InternalTransfer? ==> ps[1].wallet == work.recipient;
  }

  /** The transaction holds the row of every wallet it writes. */
  ghost predicate HoldsAll(db: Db, p: Pid, work: Work) {
    forall w :: Writes(work, w) ==> w in db.locks && db.locks[w] == p
  }

  lemma HoldsAllIs(db: Db, p: Pid, work: Work)
    ensures HoldsLocks(db, p, work) <==> HoldsAll(db, p, work)
  {
    forall w: WalletId ensures w in LockSet(work) <==> Writes(work, w) {
      LocksWhatItWrites(work, w);
    }
  }

  /** The transaction has read a balance that covers it, or needs none, and holds its rows. */
  ghost predicate MayCommit(db: Db, p: Pid) {
    && p in db.procs && HoldsAll(db, p, db.procs[p].work)
    && (db.procs[p].work.BankReversal? || db.procs[p].phase != Locking)
  }

  /**
   In every run, of two transactions that are past their balance check no wallet is written by both: whatever
   they commit, neither touches a wallet the other has read or will write.
   */
  lemma {:induction false} PayersAreApart(db: Db, actions: seq<Action>, p: Pid, q: Pid, w: WalletId)
    requires Quiet(db) && BillsPositive(db.bills) && NoOverdraft(db) && p != q
    requires var after := Run(db, actions);
             && p in after.procs && after.procs[p].phase.Checked? && q in after.procs && after.procs[q].phase.Checked?
    ensures var after := Run(db, actions);
            && MayCommit(after, p) && MayCommit(after, q)
            && !(Writes(after.procs[p].work, w) && Writes(after.procs[q].work, w))
  {
    var after := Run(db, actions);
    LedgerNeverOverdrawn(db, actions);
    HoldsAllIs(after, p, after.procs[p].work);
    HoldsAllIs(after, q, after.procs[q].work);
  }

  // ----- what a step does to a wallet

  /** What a transaction is for, wallet by wallet. */
  function Share(work: Work, w: WalletId): int {
    (if work.InternalTransfer? && w == work.recipient then work.amount else 0)
    + (if work.BankReversal? && w == work.owner then work.amount else 0)
    - (if !work.BankReversal? && w == work.sender then work.amount else 0)
  }

  ghost function Moved(db: Db, a: Action, w: WalletId): int {
    match a
    case Commit(p, _) => if MayCommit(db, p) && db.procs[p].work.amount > 0 then Share(db.procs[p].work, w) else 0
    case Deposit(v, amount, _) => if v == w && amount > 0 then amount else 0
    case PayBill(v, amount, _) => if v == w && amount > 0 then -amount else 0
    case RefundBill(bill, _) =>
      if bill < |db.bills| && !db.bills[bill].refunded && db.bills[bill].wallet == w then db.bills[bill].amount else 0
    case _ => 0
  }

  /**
   Every step, every wallet: a commit under its locks moves the transaction's amount between its parties, a
   deposit, a bill and a bill's refund move theirs in or out of the wallet they name, and nothing else moves a
   balance.
   */
  lemma StepMovesBalance(db: Db, a: Action, w: WalletId)
    ensures Balance(Step(db, a).entries, w) == Balance(db.entries, w) + Moved(db, a, w)
  {
    match a
    case Commit(p, now) =>
      if p in db.procs {
        HoldsAllIs(db, p, db.procs[p].work);
        PostingsEffect(db.entries, db.procs[p].work, db.nextTxn, now, w);
      }
    case Deposit(v, amount, now) => BalanceAppend(db.entries, Entry(v, db.nextTxn, Credit, amount, Funding, now), w);
    case PayBill(v, amount, now) => BalanceAppend(db.entries, Entry(v, db.nextTxn, Debit, amount, BillPayment, now), w);
    case RefundBill(bill, now) =>
      if bill < |db.bills| {
        var b := db.bills[bill];
        BalanceAppend(db.entries, Entry(b.wallet, db.nextTxn, Credit, b.amount, BillPayment, now), w);
      }
    case _ =>
  }

  ghost function MovedOver(db: Db, actions: seq<Action>, w: WalletId): int {
    if actions == [] then 0
    else
      var n := |actions| - 1;
      MovedOver(db, actions[..n], w) + Moved(Run(db, actions[..n]), actions[n], w)
  }

  /** In every interleaving a balance is its opening one and what the steps have moved. */
  lemma {:induction false} BalanceIsWhatMoved(db: Db, actions: seq<Action>, w: WalletId)
    ensures Balance(Run(db, actions).entries, w) == Balance(db.entries, w) + MovedOver(db, actions, w)
  {
    if actions != [] {
      BalanceIsWhatMoved(db, actions[..|actions| - 1], w);
      StepMovesBalance(Run(db, actions[..|actions| - 1]), actions[|actions| - 1], w);
    }
  }

  /** The type of the entries a step may append. */
  function TypeOfStep(db: Db, a: Action): TxnType {
    match a
    case Deposit(_, _, _) => Funding
    case PayBill(_, _, _) => BillPayment
    case RefundBill(_, _) => BillPayment
    case _ =>
      if a.p !in db.procs then Funding
      else match db.procs[a.p].work
        case InternalTransfer(_, _, _) => TransferInternal
        case BankTransfer(_, _) => TransferBank
        case BankReversal(_, _) => Reversal
  }

  /** These entries were appended under one number, at this moment, with positive amounts of one type. */
  ghost predicate AreNew(es: seq<Entry>, txn: nat, now: int, t: TxnType) {
    forall i :: 0 <= i < |es| ==> es[i].txn == txn && es[i].createdAt == now && es[i].amount > 0 && es[i].txnType == t
  }

  /** How many entries a step appends: two for an internal transfer, one for anything else that moves money. */
  ghost function HowMany(db: Db, a: Action): nat {
    match a
    case Commit(p, _) =>
      if !MayCommit(db, p) || db.procs[p].work.amount <= 0 then 0
      else if db.procs[p].work.InternalTransfer? then 2 else 1
    case Deposit(_, amount, _) => if amount > 0 then 1 else 0
    case PayBill(_, amount, _) => if amount > 0 then 1 else 0
    case RefundBill(bill, _) => if bill < |db.bills| && !db.bills[bill].refunded then 1 else 0
    case _ => 0
  }

  /** The ledger only grows: a step appends its entries under a number of their own, or nothing at all. */
  lemma StepAppends(db: Db, a: Action)
    requires BillsPositive(db.bills)
    ensures var after := Step(db, a);
            && |after.entries| == |db.entries| + HowMany(db, a) && after.entries[..|db.entries|] == db.entries
            && after.nextTxn == db.nextTxn + (if HowMany(db, a) > 0 then 1 else 0)
            && (a.Commit? || a.Deposit? || a.PayBill? || a.RefundBill? ==>
                  AreNew(after.entries[|db.entries|..], db.nextTxn, a.now, TypeOfStep(db, a)))
  {
    if a.Commit? && a.p in db.procs {
      HoldsAllIs(db, a.p, db.procs[a.p].work);
    }
  }

  // ----- what a step does to the transactions

  /** The transaction is gone, its rows are free, and every other transaction and row is as it was. */
  ghost predicate HasEnded(db: Db, after: Db, p: Pid) {
    && (forall q :: q in after.procs <==> q in db.procs && q != p)
    && (forall q :: q in after.procs ==> after.procs[q] == db.procs[q])
    && (forall w :: w in after.locks <==> w in db.locks && db.locks[w] != p)
    && (forall w :: w in after.locks ==> after.locks[w] == db.locks[w])
  }

  /** A transfer to oneself is refused; a row another transaction holds is waited for. */
  lemma BeginAndLockIff(db: Db, p: Pid, work: Work, w: WalletId)
    ensures Step(db, Begin(p, work))
            == if p in db.procs || (work.InternalTransfer? && work.sender == work.recipient) then db
               else db.(procs := db.procs[p := Proc(work, Locking)])
    ensures Step(db, Lock(p, w))
            == if p in db.procs && Writes(db.procs[p].work, w) && w !in db.locks then db.(locks := db.locks[w := p]) else db
  {
    if p in db.procs {
      LocksWhatItWrites(db.procs[p].work, w);
    }
  }

  /** The check lets a payer with all its rows go on exactly when the balance covers the amount, and ends it otherwise. */
  lemma CheckDecides(db: Db, p: Pid)
    requires p in db.procs && db.procs[p].phase == Locking && !db.procs[p].work.BankReversal?
    requires HoldsAll(db, p, db.procs[p].work)
    ensures var after, work := Step(db, Check(p)), db.procs[p].work;
            var balance := Balance(db.entries, work.sender);
            && after.entries == db.entries && after.bills == db.bills && after.nextTxn == db.nextTxn
            && (balance >= work.amount ==>
                  after.procs == db.procs[p := Proc(work, Checked(balance))] && after.locks == db.locks)
            && (balance < work.amount ==> HasEnded(db, after, p))
  {
    HoldsAllIs(db, p, db.procs[p].work);
  }

  /** A check that is not due changes nothing. */
  lemma CheckWaits(db: Db, p: Pid)
    requires p in db.procs ==>
               db.procs[p].phase != Locking || db.procs[p].work.BankReversal? || !HoldsAll(db, p, db.procs[p].work)
    ensures Step(db, Check(p)) == db
  {
    if p in db.procs {
      HoldsAllIs(db, p, db.procs[p].work);
    }
  }

  /** A commit that may happen ends its transaction, whether or not its amount is accepted; an abort always does. */
  lemma EndsAndFrees(db: Db, p: Pid, now: int)
    ensures HasEnded(db, Step(db, Abort(p)), p) && Step(db, Abort(p)).entries == db.entries
    ensures if MayCommit(db, p) then HasEnded(db, Step(db, Commit(p, now)), p) else Step(db, Commit(p, now)) == db
  {
    if p in db.procs {
      HoldsAllIs(db, p, db.procs[p].work);
    }
  }
}
