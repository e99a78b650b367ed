/** No interleaving overdraws a wallet or makes money: the guarantees of the ledger over whole runs. */
module LedgerProofs {
  import opened LedgerEntries
  import opened LedgerModel

  function Signed(e: Entry): int {
    if e.kind == Credit then e.amount else -e.amount
  }

  lemma BalanceAppend(entries: seq<Entry>, e: Entry, w: WalletId)
    ensures Balance(entries + [e], w) == Balance(entries, w) + if e.wallet == w then Signed(e) else 0
  {
    assert (entries + [e])[..|entries|] == entries;
  }

  /** What a transaction's entries add to a wallet. */
  function Effect(work: Work, w: WalletId): int {
    match work
    case InternalTransfer(sender, recipient, amount) =>
      (if w == recipient then amount else 0) - (if w == sender then amount else 0)
    case BankTransfer(sender, amount) => if w == sender then -amount else 0
    case BankReversal(owner, amount) => if w == owner then amount else 0
  }

  lemma PostingsEffect(entries: seq<Entry>, work: Work, txn: nat, now: int, w: WalletId)
    ensures Balance(entries + Postings(work, txn, now), w) == Balance(entries, w) + Effect(work, w)
  {
    var ps := Postings(work, txn, now);
    BalanceAppend(entries, ps[0], w);
    if work.InternalTransfer? {
      BalanceAppend(entries + [ps[0]], ps[1], w);
      assert entries + [ps[0]] + [ps[1]] == entries + ps;
    }
  }

  /** A committed transfer moves its amount, whole, from the sender to the recipient and touches nobody else. */
  lemma CommitMovesAmount(db: Db, p: Pid, now: int, w: WalletId)
    requires CanCommit(db, p) && db.procs[p].work.amount > 0
    ensures Balance(Step(db, Commit(p, now)).entries, w) == Balance(db.entries, w) + Effect(db.procs[p].work, w)
    ensures p !in Step(db, Commit(p, now)).procs
    ensures forall v :: v in LockSet(db.procs[p].work) ==> v !in Step(db, Commit(p, now)).locks
  {
    PostingsEffect(db.entries, db.procs[p].work, db.nextTxn, now, w);
  }

  // ----- the balance apart from bills

  /** What a wallet's unrefunded bills have taken. */
  function Unrefunded(bills: seq<Bill>, w: WalletId): int {
    if bills == [] then 0
    else
      var b := bills[|bills| - 1];
      Unrefunded(bills[..|bills| - 1], w) + if b.wallet == w && !b.refunded then b.amount else 0
  }

  /** A wallet's ledger balance with its unrefunded bills put back. */
  function Backing(db: Db, w: WalletId): int {
    Balance(db.entries, w) + Unrefunded(db.bills, w)
  }

  ghost predicate BillsPositive(bills: seq<Bill>) {
    forall i :: 0 <= i < |bills| ==> bills[i].amount > 0
  }

  lemma {:induction false} UnrefundedNotNegative(bills: seq<Bill>, w: WalletId)
    requires BillsPositive(bills)
    ensures Unrefunded(bills, w) >= 0
  {
    if bills != [] {
      UnrefundedNotNegative(bills[..|bills| - 1], w);
    }
  }

  lemma {:induction false} RefundingLowers(bills: seq<Bill>, bill: nat, w: WalletId)
    requires bill < |bills| && !bills[bill].refunded
    ensures var b := bills[bill];
            Unrefunded(bills[bill := b.(refunded := true)], w)
            == Unrefunded(bills, w) - if b.wallet == w then b.amount else 0
  {
    var n, later := |bills| - 1, bills[bill := bills[bill].(refunded := true)];
    if bill < n {
      RefundingLowers(bills[..n], bill, w);
      assert later[..n] == bills[..n][bill := bills[bill].(refunded := true)];
    } else {
      assert later[..n] == bills[..n];
    }
  }

  /** Bills leave the backing where it is, whenever they are paid or refunded. */
  lemma BillsKeepBacking(db: Db, a: Action, w: WalletId)
    requires a.PayBill? || a.RefundBill?
    ensures Backing(Step(db, a), w) == Backing(db, w)
  {
    var e := if a.PayBill? then Entry(a.w, db.nextTxn, Debit, a.amount, BillPayment, a.now)
             else if a.bill < |db.bills| then Entry(db.bills[a.bill].wallet, db.nextTxn, Credit, db.bills[a.bill].amount, BillPayment, a.now)
             else Entry(w, 0, Credit, 0, BillPayment, a.now);
    BalanceAppend(db.entries, e, w);
    if a.PayBill? {
      assert (db.bills + [Bill(a.w, a.amount, false)])[..|db.bills|] == db.bills;
    } else if a.bill < |db.bills| && !db.bills[a.bill].refunded {
      RefundingLowers(db.bills, a.bill, w);
    }
  }

  // ----- the lock makes a balance read a lower bound

  /** The transaction whose step it is, if it is one's. */
  predicate IsBy(a: Action, p: Pid) {
    !a.Deposit? && !a.PayBill? && !a.RefundBill? && a.p == p
  }

  /**
   Rely: while p holds a wallet's row, no step of another transaction, no deposit and no bill frees it or
   lowers the wallet's backing; and only a bill purchase lowers its balance.
   */
  lemma OthersOnlyRaise(db: Db, a: Action, p: Pid, w: WalletId)
    requires w in db.locks && db.locks[w] == p && !IsBy(a, p)
    ensures w in Step(db, a).locks && Step(db, a).locks[w] == p
    ensures Backing(Step(db, a), w) >= Backing(db, w)
  {
    match a
    case Commit(q, now) =>
      if CanCommit(db, q) && db.procs[q].work.amount > 0 {
        PostingsEffect(db.entries, db.procs[q].work, db.nextTxn, now, w);
        assert w !in LockSet(db.procs[q].work);
      }
    case Deposit(v, amount, now) =>
      if amount > 0 { BalanceAppend(db.entries, Entry(v, db.nextTxn, Credit, amount, Funding, now), w); }
    case PayBill(_, _, _) => BillsKeepBacking(db, a, w);
    case RefundBill(_, _) => BillsKeepBacking(db, a, w);
    case _ =>
  }

  /**
   The balance read under the row lock is a lower bound until the holder itself acts, less whatever bills
   the wallet has had to pay meanwhile.
   */
  lemma {:induction false} ReadIsLowerBound(db: Db, actions: seq<Action>, p: Pid, w: WalletId)
    requires w in db.locks && db.locks[w] == p
    requires forall i :: 0 <= i < |actions| ==> !IsBy(actions[i], p)
    ensures w in Run(db, actions).locks && Run(db, actions).locks[w] == p
    ensures Balance(Run(db, actions).entries, w)
            >= Balance(db.entries, w) - (Unrefunded(Run(db, actions).bills, w) - Unrefunded(db.bills, w))
  {
    if actions != [] {
      ReadIsLowerBound(db, actions[..|actions| - 1], p, w);
      OthersOnlyRaise(Run(db, actions[..|actions| - 1]), actions[|actions| - 1], p, w);
    }
  }

  // ----- no wallet is overdrawn but by its bills

  ghost predicate ReadsHold(db: Db) {
    && BillsPositive(db.bills)
    && forall p :: p in db.procs && db.procs[p].phase.Checked? ==>
         && !db.procs[p].work.BankReversal?
         && HoldsLocks(db, p, db.procs[p].work)
         && db.procs[p].work.amount <= db.procs[p].phase.balance <= Backing(db, db.procs[p].work.sender)
  }

  ghost predicate NoOverdraft(db: Db) {
    forall w: WalletId :: Backing(db, w) >= 0
  }

  /** A checked transaction's reading stays below the backing through any step of others. */
  lemma OthersKeepRead(db: Db, a: Action, p: Pid)
    requires ReadsHold(db) && p in db.procs && db.procs[p].phase.Checked? && !IsBy(a, p)
    ensures p in Step(db, a).procs && Step(db, a).procs[p] == db.procs[p]
    ensures HoldsLocks(Step(db, a), p, db.procs[p].work)
    ensures db.procs[p].phase.balance <= Backing(Step(db, a), db.procs[p].work.sender)
  {
    forall w | w in LockSet(db.procs[p].work) ensures w in Step(db, a).locks && Step(db, a).locks[w] == p {
      OthersOnlyRaise(db, a, p, w);
    }
    OthersOnlyRaise(db, a, p, db.procs[p].work.sender);
  }

  lemma StepKeepsReadsHold(db: Db, a: Action)
    requires ReadsHold(db)
    ensures ReadsHold(Step(db, a))
  {
    var db' := Step(db, a);
    forall p | p in db'.procs && db'.procs[p].phase.Checked?
      ensures !db'.procs[p].work.BankReversal? && HoldsLocks(db', p, db'.procs[p].work)
      ensures db'.procs[p].work.amount <= db'.procs[p].phase.balance <= Backing(db', db'.procs[p].work.sender)
    {
      if !IsBy(a, p) {
        assert p in db.procs && db.procs[p] == db'.procs[p];
        OthersKeepRead(db, a, p);
      } else {
        UnrefundedNotNegative(db.bills, db'.procs[p].work.sender);
      }
    }
  }

  lemma StepKeepsNoOverdraft(db: Db, a: Action)
    requires ReadsHold(db) && NoOverdraft(db)
    ensures NoOverdraft(Step(db, a))
  {
    forall w: WalletId ensures Backing(Step(db, a), w) >= 0 {
      assert Backing(db, w) >= 0;
      if a.Commit? && CanCommit(db, a.p) && db.procs[a.p].work.amount > 0 {
        CommitMovesAmount(db, a.p, a.now, w);
      } else if a.Deposit? && a.amount > 0 {
        BalanceAppend(db.entries, Entry(a.w, db.nextTxn, Credit, a.amount, Funding, a.now), w);
      } else if a.PayBill? || a.RefundBill? {
        BillsKeepBacking(db, a, w);
      }
    }
  }

  /**
   In every interleaving of transfers, reversals, unlocked deposits, bill purchases and bill refunds a
   wallet's ledger balance falls below zero by no more than its unrefunded bills have taken.
   */
  lemma {:induction false} LedgerNeverOverdrawn(db: Db, actions: seq<Action>)
    requires Quiet(db) && BillsPositive(db.bills) && NoOverdraft(db)
    ensures NoOverdraft(Run(db, actions)) && ReadsHold(Run(db, actions))
  {
    if actions != [] {
      LedgerNeverOverdrawn(db, actions[..|actions| - 1]);
      StepKeepsReadsHold(Run(db, actions[..|actions| - 1]), actions[|actions| - 1]);
      StepKeepsNoOverdraft(Run(db, actions[..|actions| - 1]), actions[|actions| - 1]);
    }
  }

  ghost predicate AllRefunded(bills: seq<Bill>, w: WalletId) {
    forall i :: 0 <= i < |bills| && bills[i].wallet == w ==> bills[i].refunded
  }

  lemma {:induction false} NothingOutstanding(bills: seq<Bill>, w: WalletId)
    requires AllRefunded(bills, w)
    ensures Unrefunded(bills, w) == 0
  {
    if bills != [] {
      NothingOutstanding(bills[..|bills| - 1], w);
    }
  }

  /** So a wallet with no unrefunded bill has a balance that is not negative, at every moment of every run. */
  lemma {:induction false} WithoutBillsNotNegative(db: Db, actions: seq<Action>, w: WalletId)
    requires Quiet(db) && BillsPositive(db.bills) && NoOverdraft(db)
    requires AllRefunded(Run(db, actions).bills, w)
    ensures Balance(Run(db, actions).entries, w) >= 0
  {
    LedgerNeverOverdrawn(db, actions);
    NothingOutstanding(Run(db, actions).bills, w);
    assert Backing(Run(db, actions), w) >= 0;
  }

  /** The bound is reached: a bill whose purchase asked only the stored balance leaves the ledger below zero. */
  lemma BillCanOverdraw(w: WalletId, amount: int, now: int)
    requires amount > 0
    ensures var db := Run(Db([], 0, map[], map[], []), [PayBill(w, amount, now)]);
            Balance(db.entries, w) == -amount && Unrefunded(db.bills, w) == amount
  {
    var open, a := Db([], 0, map[], map[], []), PayBill(w, amount, now);
    assert [a][..0] == [];
    BalanceAppend([], Entry(w, 0, Debit, amount, BillPayment, now), w);
    assert [] + [Entry(w, 0, Debit, amount, BillPayment, now)] == Run(open, [a]).entries;
    assert Run(open, [a]).bills[..0] == [];
  }

  // ----- where the money of all wallets comes from

  /** The signed sum of all entries of one transaction type. */
  function TypeTotal(entries: seq<Entry>, t: TxnType): int {
    if entries == [] then 0
    else
      var e := entries[|entries| - 1];
      TypeTotal(entries[..|entries| - 1], t) + if e.txnType == t then Signed(e) else 0
  }

  /** The signed sum of the entries of one transaction. */
  function Net(entries: seq<Entry>, txn: nat): int {
    if entries == [] then 0
    else
      var e := entries[|entries| - 1];
      Net(entries[..|entries| - 1], txn) + if e.txn == txn then Signed(e) else 0
  }

  /** The balances of the listed wallets together. */
  function TotalBalance(entries: seq<Entry>, wallets: seq<WalletId>): int {
    if wallets == [] then 0
    else TotalBalance(entries, wallets[..|wallets| - 1]) + Balance(entries, wallets[|wallets| - 1])
  }

  ghost predicate Lists(wallets: seq<WalletId>, entries: seq<Entry>) {
    && (forall i, j :: 0 <= i < j < |wallets| ==> wallets[i] != wallets[j])
    && (forall i :: 0 <= i < |entries| ==> entries[i].wallet in wallets)
  }

  lemma {:induction false} TotalAppend(entries: seq<Entry>, e: Entry, wallets: seq<WalletId>)
    requires forall i, j :: 0 <= i < j < |wallets| ==> wallets[i] != wallets[j]
    ensures TotalBalance(entries + [e], wallets)
            == TotalBalance(entries, wallets) + if e.wallet in wallets then Signed(e) else 0
  {
    if wallets != [] {
      var n := |wallets| - 1;
      TotalAppend(entries, e, wallets[..n]);
      BalanceAppend(entries, e, wallets[n]);
      assert wallets == wallets[..n] + [wallets[n]];
    }
  }

  lemma {:induction false} TotalOfNone(wallets: seq<WalletId>)
    ensures TotalBalance([], wallets) == 0
  {
    if wallets != [] {
      TotalOfNone(wallets[..|wallets| - 1]);
    }
  }

  /** Counting by wallet and counting by transaction type give the same total. */
  lemma {:induction false} TotalByType(entries: seq<Entry>, wallets: seq<WalletId>)
    requires Lists(wallets, entries)
    ensures TotalBalance(entries, wallets)
            == TypeTotal(entries, TransferInternal) + TypeTotal(entries, TransferBank)
               + TypeTotal(entries, Funding) + TypeTotal(entries, Reversal) + TypeTotal(entries, BillPayment)
  {
    if entries == [] {
      TotalOfNone(wallets);
    } else {
      var n := |entries| - 1;
      TotalByType(entries[..n], wallets);
      TotalAppend(entries[..n], entries[n], wallets);
      assert entries[..n] + [entries[n]] == entries;
    }
  }

  lemma TypeTotalAppend(entries: seq<Entry>, e: Entry, t: TxnType)
    ensures TypeTotal(entries + [e], t) == TypeTotal(entries, t) + if e.txnType == t then Signed(e) else 0
  {
    assert (entries + [e])[..|entries|] == entries;
  }

  lemma NetAppend(entries: seq<Entry>, e: Entry, txn: nat)
    ensures Net(entries + [e], txn) == Net(entries, txn) + if e.txn == txn then Signed(e) else 0
  {
    assert (entries + [e])[..|entries|] == entries;
  }

  lemma PostingsType(entries: seq<Entry>, work: Work, txn: nat, now: int, t: TxnType)
    ensures TypeTotal(entries + Postings(work, txn, now), t)
            == TypeTotal(entries, t)
               + match work
                 case InternalTransfer(_, _, _) => 0
                 case BankTransfer(_, amount) => if t == TransferBank then -amount else 0
                 case BankReversal(_, amount) => if t == Reversal then amount else 0
  {
    var ps := Postings(work, txn, now);
    TypeTotalAppend(entries, ps[0], t);
    if work.InternalTransfer? {
      TypeTotalAppend(entries + [ps[0]], ps[1], t);
      assert entries + [ps[0]] + [ps[1]] == entries + ps;
    }
  }

  /** Which way the total of a transaction type may move: internal transfers cancel out. */
  predicate TypeMoves(t: TxnType, before: int, after: int) {
    match t
    case TransferInternal => after == before
    case TransferBank => after <= before
    case Funding => after >= before
    case Reversal => after >= before
    case BillPayment => true
  }

  lemma StepByType(db: Db, a: Action, t: TxnType)
    ensures TypeMoves(t, TypeTotal(db.entries, t), TypeTotal(Step(db, a).entries, t))
  {
    if a.Commit? && CanCommit(db, a.p) && db.procs[a.p].work.amount > 0 {
      PostingsType(db.entries, db.procs[a.p].work, db.nextTxn, a.now, t);
    } else if a.Deposit? && a.amount > 0 {
      TypeTotalAppend(db.entries, Entry(a.w, db.nextTxn, Credit, a.amount, Funding, a.now), t);
    } else if a.PayBill? {
      TypeTotalAppend(db.entries, Entry(a.w, db.nextTxn, Debit, a.amount, BillPayment, a.now), t);
    } else if a.RefundBill? && a.bill < |db.bills| {
      TypeTotalAppend(db.entries,
        Entry(db.bills[a.bill].wallet, db.nextTxn, Credit, db.bills[a.bill].amount, BillPayment, a.now), t);
    }
  }

  /** Over any run funding and reversals only add, bank transfers only take, and internal transfers do neither. */
  lemma {:induction false} RunByType(db: Db, actions: seq<Action>, t: TxnType)
    ensures db.entries <= Run(db, actions).entries
    ensures TypeMoves(t, TypeTotal(db.entries, t), TypeTotal(Run(db, actions).entries, t))
  {
    if actions != [] {
      RunByType(db, actions[..|actions| - 1], t);
      StepByType(Run(db, actions[..|actions| - 1]), actions[|actions| - 1], t);
    }
  }

  /**
   Conservation: over any run the total of all wallets changes by exactly the funding and reversal
   credits less the bank debits, and by the bills' debits and refunds.
   */
  lemma TotalIsConserved(db: Db, actions: seq<Action>, wallets: seq<WalletId>)
    requires Lists(wallets, Run(db, actions).entries)
    ensures var es, es' := db.entries, Run(db, actions).entries;
            TotalBalance(es', wallets) == TotalBalance(es, wallets)
              + (TypeTotal(es', Funding) - TypeTotal(es, Funding))
              + (TypeTotal(es', Reversal) - TypeTotal(es, Reversal))
              + (TypeTotal(es', TransferBank) - TypeTotal(es, TransferBank))
              + (TypeTotal(es', BillPayment) - TypeTotal(es, BillPayment))
  {
    RunByType(db, actions, TransferInternal);
    var es, es' := db.entries, Run(db, actions).entries;
    forall i | 0 <= i < |es| ensures es[i].wallet in wallets {
      assert es[i] == es'[i];
    }
    TotalByType(es, wallets);
    TotalByType(es', wallets);
  }

  /** Transaction numbers are fresh, and a transaction with an internal entry nets to zero. */
  ghost predicate InternalNetsToZero(db: Db) {
    && (forall i :: 0 <= i < |db.entries| ==> db.entries[i].txn < db.nextTxn)
    && (forall i :: 0 <= i < |db.entries| && db.entries[i].txnType == TransferInternal ==>
          Net(db.entries, db.entries[i].txn) == 0)
  }

  lemma {:induction false} NetOfUnused(entries: seq<Entry>, txn: nat)
    requires forall i :: 0 <= i < |entries| ==> entries[i].txn != txn
    ensures Net(entries, txn) == 0
  {
    if entries != [] {
      NetOfUnused(entries[..|entries| - 1], txn);
    }
  }

  lemma PostingsNet(entries: seq<Entry>, work: Work, txn: nat, now: int, t: nat)
    ensures work.InternalTransfer? || t != txn ==> Net(entries + Postings(work, txn, now), t) == Net(entries, t)
  {
    var ps := Postings(work, txn, now);
    NetAppend(entries, ps[0], t);
    if work.InternalTransfer? {
      NetAppend(entries + [ps[0]], ps[1], t);
      assert entries + [ps[0]] + [ps[1]] == entries + ps;
    }
  }

  lemma CommitKeepsNets(db: Db, work: Work, now: int, after: Db)
    requires InternalNetsToZero(db)
    requires after.entries == db.entries + Postings(work, db.nextTxn, now) && after.nextTxn == db.nextTxn + 1
    ensures InternalNetsToZero(after)
  {
    NetOfUnused(db.entries, db.nextTxn);
    forall i | 0 <= i < |after.entries|
      ensures after.entries[i].txn < after.nextTxn
      ensures after.entries[i].txnType == TransferInternal ==> Net(after.entries, after.entries[i].txn) == 0
    {
      PostingsNet(db.entries, work, db.nextTxn, now, after.entries[i].txn);
      assert i < |db.entries| ==> after.entries[i] == db.entries[i];
    }
  }

  /** An entry under a number of its own, and of another kind. */
  lemma EntryKeepsNets(db: Db, e: Entry, after: Db)
    requires InternalNetsToZero(db) && e.txn == db.nextTxn && e.txnType != TransferInternal
    requires after.entries == db.entries + [e] && after.nextTxn == db.nextTxn + 1
    ensures InternalNetsToZero(after)
  {
    forall i | 0 <= i < |db.entries| {
      NetAppend(db.entries, e, db.entries[i].txn);
    }
  }

  lemma StepKeepsNets(db: Db, a: Action)
    requires InternalNetsToZero(db)
    ensures InternalNetsToZero(Step(db, a))
  {
    if a.Commit? && CanCommit(db, a.p) && db.procs[a.p].work.amount > 0 {
      CommitKeepsNets(db, db.procs[a.p].work, a.now, Step(db, a));
    } else if Step(db, a).entries != db.entries {
      EntryKeepsNets(db, Step(db, a).entries[|db.entries|], Step(db, a));
    }
  }

  /** The entries of every internal transfer net to zero, in every run. */
  lemma {:induction false} InternalTransfersNetToZero(db: Db, actions: seq<Action>)
    requires InternalNetsToZero(db)
    ensures InternalNetsToZero(Run(db, actions))
  {
    if actions != [] {
      InternalTransfersNetToZero(db, actions[..|actions| - 1]);
      StepKeepsNets(Run(db, actions[..|actions| - 1]), actions[|actions| - 1]);
    }
  }

  // ----- a transfer alone

  function SoloTransfer(p: Pid, sender: WalletId, recipient: WalletId, amount: int, now: int): seq<Action> {
    [Begin(p, InternalTransfer(sender, recipient, amount)), Lock(p, sender), Lock(p, recipient), Check(p),
     Commit(p, now)]
  }

  lemma RunStep(db: Db, actions: seq<Action>, n: nat)
    requires n < |actions|
    ensures Run(db, actions[..n + 1]) == Step(Run(db, actions[..n]), actions[n])
  {
    assert actions[..n + 1][..n] == actions[..n];
  }

  lemma SoloReachesCheck(db: Db, p: Pid, sender: WalletId, recipient: WalletId, amount: int, now: int)
    requires Quiet(db) && sender != recipient
    ensures Run(db, SoloTransfer(p, sender, recipient, amount, now)[..3])
            == db.(procs := map[p := Proc(InternalTransfer(sender, recipient, amount), Locking)],
                   locks := map[sender := p, recipient := p])
  {
    var solo := SoloTransfer(p, sender, recipient, amount, now);
    RunStep(db, solo, 0);
    RunStep(db, solo, 1);
    RunStep(db, solo, 2);
  }

  /** A transfer that meets no rival commits exactly when the sender's balance covers it, and leaves no lock behind. */
  lemma SoloTransferPaysIffCovered(db: Db, p: Pid, sender: WalletId, recipient: WalletId, amount: int, now: int)
    requires Quiet(db) && sender != recipient && amount > 0
    ensures var db' := Run(db, SoloTransfer(p, sender, recipient, amount, now));
            && Quiet(db')
            && (Balance(db.entries, sender) >= amount <==> db'.entries != db.entries)
            && (Balance(db.entries, sender) >= amount ==>
                  && Balance(db'.entries, sender) == Balance(db.entries, sender) - amount
                  && Balance(db'.entries, recipient) == Balance(db.entries, recipient) + amount)
  {
    var solo := SoloTransfer(p, sender, recipient, amount, now);
    SoloReachesCheck(db, p, sender, recipient, amount, now);
    var locked := Run(db, solo[..3]);
    RunStep(db, solo, 3);
    RunStep(db, solo, 4);
    assert solo[..5] == solo;
    if Balance(db.entries, sender) >= amount {
      CommitMovesAmount(StepCheck(locked, p), p, now, sender);
      CommitMovesAmount(StepCheck(locked, p), p, now, recipient);
    }
  }
}
