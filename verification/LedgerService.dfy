/** The ledger tables and row locks, changed in place: one method per step of LedgerModel. */
module LedgerService {
  import opened LedgerEntries
  import opened LedgerModel

  class Ledger {
    var entries: seq<Entry>
    var nextTxn: nat
    var locks: map<WalletId, Pid>
    var procs: map<Pid, Proc>
    var bills: seq<Bill>

    ghost function State(): Db
      reads this
    {
      Db(entries, nextTxn, locks, procs, bills)
    }

    constructor ()
      ensures State() == Db([], 0, map[], map[], [])
    {
      entries, nextTxn, locks, procs, bills := [], 0, map[], map[], [];
    }

    method BeginTransaction(p: Pid, work: Work) returns (started: bool)
      requires p !in procs
      modifies this`procs
      ensures State() == Step(old(State()), Begin(p, work))
      ensures started <==> p in procs
    {
      if work.InternalTransfer? && work.sender == work.recipient {
        return false;
      }
      procs := procs[p := Proc(work, Locking)];
      return true;
    }

    /** One row of SELECT ... FOR UPDATE; false means the row is held and the caller waits. */
    method LockRow(p: Pid, w: WalletId) returns (locked: bool)
      requires p in procs && w in LockSet(procs[p].work)
      modifies this`locks
      ensures State() == Step(old(State()), Lock(p, w))
      ensures locked <==> w !in old(locks)
    {
      if w in locks {
        return false;
      }
      locks := locks[w := p];
      return true;
    }

    method EndTransaction(p: Pid)
      modifies this`locks, this`procs
      ensures State() == Release(old(State()), p)
    {
      locks := map w | w in locks && locks[w] != p :: locks[w];
      procs := procs - {p};
    }

    /** assertSufficientBalance over getBalanceInLock. */
    method CheckBalance(p: Pid) returns (sufficient: bool)
      requires p in procs && procs[p].phase == Locking && !procs[p].work.BankReversal?
      requires HoldsLocks(State(), p, procs[p].work)
      modifies this`locks, this`procs
      ensures State() == Step(old(State()), Check(p))
      ensures sufficient <==> Balance(entries, old(procs)[p].work.sender) >= old(procs)[p].work.amount
    {
      var work := procs[p].work;
      var balance := SumOf(entries, work.sender, Credit) - SumOf(entries, work.sender, Debit);
      if balance < work.amount {
        EndTransaction(p);
        return false;
      }
      procs := procs[p := Proc(work, Checked(balance))];
      return true;
    }

    method CommitTransaction(p: Pid, now: int) returns (committed: bool)
      requires CanCommit(State(), p)
      modifies this
      ensures State() == Step(old(State()), Commit(p, now))
      ensures committed <==> old(procs)[p].work.amount > 0
    {
      var work := procs[p].work;
      EndTransaction(p);
      if work.amount <= 0 {
        return false;
      }
      match work {
        case InternalTransfer(sender, recipient, amount) =>
          var fee := 0;
          var netAmount := amount - fee;
          entries := entries + [Entry(sender, nextTxn, Debit, amount, TransferInternal, now),
                                Entry(recipient, nextTxn, Credit, netAmount, TransferInternal, now)];
        case BankTransfer(sender, amount) =>
          entries := entries + [Entry(sender, nextTxn, Debit, amount, TransferBank, now)];
        case BankReversal(owner, amount) =>
          entries := entries + [Entry(owner, nextTxn, Credit, amount, Reversal, now)];
      }
      nextTxn := nextTxn + 1;
      return true;
    }

    /** The transaction of creditWallet. */
    method CreditDeposit(w: WalletId, amount: int, now: int)
      modifies this`entries, this`nextTxn
      ensures State() == Step(old(State()), Deposit(w, amount, now))
    {
      if amount > 0 {
        entries := entries + [Entry(w, nextTxn, Credit, amount, Funding, now)];
        nextTxn := nextTxn + 1;
      }
    }

    /** The ledger entry of a bill purchase. */
    method DebitBill(w: WalletId, amount: int, now: int)
      modifies this`entries, this`nextTxn, this`bills
      ensures State() == Step(old(State()), PayBill(w, amount, now))
    {
      if amount > 0 {
        entries := entries + [Entry(w, nextTxn, Debit, amount, BillPayment, now)];
        nextTxn := nextTxn + 1;
        bills := bills + [Bill(w, amount, false)];
      }
    }

    /** The ledger entry of a bill's refund. */
    method CreditBill(bill: nat, now: int)
      modifies this`entries, this`nextTxn, this`bills
      ensures State() == Step(old(State()), RefundBill(bill, now))
    {
      if bill < |bills| && !bills[bill].refunded {
        var b := bills[bill];
        entries := entries + [Entry(b.wallet, nextTxn, Credit, b.amount, BillPayment, now)];
        nextTxn := nextTxn + 1;
        bills := bills[bill := b.(refunded := true)];
      }
    }
  }
}
