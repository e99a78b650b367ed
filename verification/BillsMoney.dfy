/** Money in the bill protocol: conservation, no overdraft, and one matching refund at most. */
module BillsMoney {
  import opened BillsModel

  // ----- what every record says about its bill

  predicate DescribesBill(bills: seq<Bill>, bill: BillId, wallet: WalletId, amount: int, reference: string) {
    && bill < |bills|
    && bills[bill].wallet == wallet
    && bills[bill].amount == amount
    && bills[bill].reference == reference
  }

  predicate EntryFits(bills: seq<Bill>, e: Entry) {
    && e.bill < |bills|
    && e.wallet == bills[e.bill].wallet
    && e.amount == bills[e.bill].amount
    && e.reference == (if e.kind == Debit then "" else "REFUND-") + bills[e.bill].reference
  }

  ghost predicate Records(db: Db) {
    && |db.delays| == |db.bills|
    && (forall b :: 0 <= b < |db.bills| ==> db.bills[b].amount > 0 && db.bills[b].wallet in db.available)
    && (forall t :: t in db.tasks ==>
          DescribesBill(db.bills, db.tasks[t].bill, db.tasks[t].wallet, db.tasks[t].amount, db.tasks[t].reference))
    && (forall j :: j in db.jobs ==> DescribesBill(db.bills, j.bill, j.wallet, j.amount, j.reference))
    && (forall i :: 0 <= i < |db.entries| ==> EntryFits(db.bills, db.entries[i]))
  }

  /** The rows of `after` are those of `before`, up to their status, and possibly one more. */
  ghost predicate RowsKept(before: seq<Bill>, after: seq<Bill>) {
    && |before| <= |after|
    && forall b :: 0 <= b < |before| ==> after[b].(status := before[b].status) == before[b]
  }

  lemma FinalizeKeepsRows(db: Db, t: TaskId)
    ensures RowsKept(db.bills, StepFinalize(db, t).bills)
    ensures StepFinalize(db, t).available.Keys == db.available.Keys
  {
  }

  lemma RefundKeepsRows(db: Db, t: TaskId)
    ensures RowsKept(db.bills, StepSafeRefund(db, t).bills)
    ensures StepSafeRefund(db, t).available.Keys == db.available.Keys
  {
  }

  lemma StepKeepsRows(db: Db, a: Action)
    ensures RowsKept(db.bills, Step(db, a).bills)
    ensures Step(db, a).available.Keys == db.available.Keys
  {
    match a
    case Finalize(t) => FinalizeKeepsRows(db, t);
    case SafeRefund(t) => RefundKeepsRows(db, t);
    case _ =>
  }

  /** Records speak of the immutable columns only, so a status update or a new row leaves them true. */
  lemma RecordsCarryOver(db: Db, db': Db)
    requires Records(db) && RowsKept(db.bills, db'.bills)
    requires |db'.delays| == |db'.bills| && db'.available.Keys == db.available.Keys
    requires forall b :: |db.bills| <= b < |db'.bills| ==>
               db'.bills[b].amount > 0 && db'.bills[b].wallet in db'.available
    requires forall t :: t in db'.tasks ==>
               || DescribesBill(db'.bills, db'.tasks[t].bill, db'.tasks[t].wallet, db'.tasks[t].amount, db'.tasks[t].reference)
               || (t in db.tasks && db'.tasks[t].(stage := db.tasks[t].stage, caller := db.tasks[t].caller) == db.tasks[t])
    requires forall j :: j in db'.jobs ==> j in db.jobs || DescribesBill(db'.bills, j.bill, j.wallet, j.amount, j.reference)
    requires forall i :: 0 <= i < |db'.entries| ==>
               (i < |db.entries| && db'.entries[i] == db.entries[i]) || EntryFits(db'.bills, db'.entries[i])
    ensures Records(db')
  {
    forall b | 0 <= b < |db.bills|
      ensures db'.bills[b].amount > 0 && db'.bills[b].wallet in db'.available
    {
      assert db'.bills[b].(status := db.bills[b].status) == db.bills[b];
    }
    forall t | t in db'.tasks
      ensures DescribesBill(db'.bills, db'.tasks[t].bill, db'.tasks[t].wallet, db'.tasks[t].amount, db'.tasks[t].reference)
    {
      if t in db.tasks {
        var b := db.tasks[t].bill;
        assert db'.bills[b].(status := db.bills[b].status) == db.bills[b];
      }
    }
    forall j | j in db'.jobs ensures DescribesBill(db'.bills, j.bill, j.wallet, j.amount, j.reference) {
      if j in db.jobs {
        assert db'.bills[j.bill].(status := db.bills[j.bill].status) == db.bills[j.bill];
      }
    }
    forall i | 0 <= i < |db'.entries| ensures EntryFits(db'.bills, db'.entries[i]) {
      if i < |db.entries| && db'.entries[i] == db.entries[i] {
        var b := db.entries[i].bill;
        assert EntryFits(db.bills, db.entries[i]);
        assert db'.bills[b].(status := db.bills[b].status) == db.bills[b];
      }
    }
  }

  lemma PurchaseKeepsRecords(db: Db, a: Action)
    requires Records(db) && a.Purchase?
    ensures Records(StepPurchase(db, a))
  {
    if CanPurchase(db, a) {
      RecordsCarryOver(db, StepPurchase(db, a));
    }
  }

  lemma ReadsKeepRecords(db: Db, a: Action)
    requires Records(db) && (a.TakeJob? || a.Requery? || a.Answer?)
    ensures Records(Step(db, a))
  {
  }

  lemma CarryKeepsRecords(db: Db, t: TaskId, plan: Plan)
    requires Records(db) && t in db.tasks && db.tasks[t].bill < |db.bills|
    ensures Records(Carry(db, t, plan))
  {
    RecordsCarryOver(db, Carry(db, t, plan));
  }

  lemma FinalizeKeepsRecords(db: Db, t: TaskId)
    requires Records(db)
    ensures Records(StepFinalize(db, t))
  {
    if t in db.tasks && db.tasks[t].stage.Answered? {
      CarryKeepsRecords(db, t, PlanFor(db.tasks[t]));
    }
  }

  lemma RefundKeepsRecords(db: Db, t: TaskId)
    requires Records(db)
    ensures Records(StepSafeRefund(db, t))
  {
    RecordsCarryOver(db, StepSafeRefund(db, t));
  }

  lemma EnqueueKeepsRecords(db: Db, t: TaskId)
    requires Records(db)
    ensures Records(StepEnqueue(db, t))
  {
    RecordsCarryOver(db, StepEnqueue(db, t));
  }

  lemma StepKeepsRecords(db: Db, a: Action)
    requires Records(db)
    ensures Records(Step(db, a))
  {
    match a
    case Purchase(_, _, _, _, _, _, _, _, _) => PurchaseKeepsRecords(db, a);
    case Finalize(t) => FinalizeKeepsRecords(db, t);
    case SafeRefund(t) => RefundKeepsRecords(db, t);
    case Enqueue(t) => EnqueueKeepsRecords(db, t);
    case _ => ReadsKeepRecords(db, a);
  }

  // ----- counting the entries of a bill

  /** How many entries of a kind a bill has. */
  function Count(entries: seq<Entry>, bill: BillId, kind: Kind): nat {
    if entries == [] then 0
    else
      var e := entries[|entries| - 1];
      Count(entries[..|entries| - 1], bill, kind) + if e.bill == bill && e.kind == kind then 1 else 0
  }

  lemma CountAppend(entries: seq<Entry>, e: Entry, bill: BillId, kind: Kind)
    ensures Count(entries + [e], bill, kind)
            == Count(entries, bill, kind) + if e.bill == bill && e.kind == kind then 1 else 0
  {
    assert (entries + [e])[..|entries|] == entries;
  }

  lemma {:induction false} CountZero(entries: seq<Entry>, bill: BillId, kind: Kind)
    ensures Count(entries, bill, kind) == 0
            <==> forall i :: 0 <= i < |entries| ==> !(entries[i].bill == bill && entries[i].kind == kind)
  {
    if entries != [] {
      CountZero(entries[..|entries| - 1], bill, kind);
    }
  }

  /** The lookup by bill, type and reference finds exactly the bill's credit entries. */
  lemma LookupFindsRefund(db: Db, bill: BillId)
    requires Records(db) && bill < |db.bills|
    ensures HasRefund(db.entries, bill, db.bills[bill].reference) <==> Count(db.entries, bill, Credit) > 0
  {
    CountZero(db.entries, bill, Credit);
  }

  /** Each bill has its one debit; at most one refund; no entry for a bill that is not there. */
  ghost predicate EntriesOnce(db: Db) {
    && (forall b :: 0 <= b < |db.bills| ==> Count(db.entries, b, Debit) == 1)
    && (forall b :: 0 <= b < |db.bills| ==> Count(db.entries, b, Credit) <= 1)
    && (forall b, k :: b >= |db.bills| ==> Count(db.entries, b, k) == 0)
  }

  /** The two entries the protocol makes: the debit of a new bill, and the first credit of an old one. */
  lemma AppendKeepsEntriesOnce(db: Db, db': Db, e: Entry)
    requires EntriesOnce(db) && db'.entries == db.entries + [e]
    requires if e.kind == Debit then |db'.bills| == |db.bills| + 1 && e.bill == |db.bills|
             else |db'.bills| == |db.bills| && e.bill < |db.bills| && Count(db.entries, e.bill, Credit) == 0
    ensures EntriesOnce(db')
  {
    forall b: BillId, k: Kind ensures Count(db'.entries, b, k)
      == Count(db.entries, b, k) + if e.bill == b && e.kind == k then 1 else 0
    {
      CountAppend(db.entries, e, b, k);
    }
  }

  lemma PurchaseKeepsEntriesOnce(db: Db, a: Action)
    requires a.Purchase? && EntriesOnce(db)
    ensures EntriesOnce(StepPurchase(db, a))
  {
    if CanPurchase(db, a) {
      AppendKeepsEntriesOnce(db, StepPurchase(db, a), Entry(a.wallet, |db.bills|, Debit, a.amount, a.reference));
    }
  }

  lemma RefundKeepsEntriesOnce(db: Db, t: TaskId)
    requires Records(db) && EntriesOnce(db)
    ensures EntriesOnce(StepSafeRefund(db, t))
  {
    var db' := StepSafeRefund(db, t);
    if db'.entries != db.entries {
      LookupFindsRefund(db, db.tasks[t].bill);
      AppendKeepsEntriesOnce(db, db', db'.entries[|db.entries|]);
    }
  }

  /** The steps that append no entry and add no bill. */
  lemma OthersKeepEntriesOnce(db: Db, a: Action)
    requires EntriesOnce(db) && !a.Purchase? && !a.SafeRefund?
    ensures EntriesOnce(Step(db, a))
  {
    assert Step(db, a).entries == db.entries && |Step(db, a).bills| == |db.bills|;
  }

  // ----- the balance

  /** The amounts of a wallet's bills that have no refund entry. */
  function Outstanding(bills: seq<Bill>, entries: seq<Entry>, w: WalletId): int {
    if bills == [] then 0
    else
      var b := |bills| - 1;
      Outstanding(bills[..b], entries, w)
      + if bills[b].wallet == w && Count(entries, b, Credit) == 0 then bills[b].amount else 0
  }

  lemma {:induction false} OutstandingSame(
      bills: seq<Bill>, bills': seq<Bill>, entries: seq<Entry>, entries': seq<Entry>, w: WalletId)
    requires |bills| == |bills'| && RowsKept(bills, bills')
    requires forall b :: 0 <= b < |bills| ==> Count(entries, b, Credit) == Count(entries', b, Credit)
    ensures Outstanding(bills, entries, w) == Outstanding(bills', entries', w)
  {
    if bills != [] {
      var b := |bills| - 1;
      OutstandingSame(bills[..b], bills'[..b], entries, entries', w);
      assert bills'[b].(status := bills[b].status) == bills[b];
    }
  }

  lemma {:induction false} OutstandingRefund(bills: seq<Bill>, entries: seq<Entry>, e: Entry, w: WalletId)
    requires e.kind == Credit && Count(entries, e.bill, Credit) == 0
    ensures Outstanding(bills, entries + [e], w)
            == Outstanding(bills, entries, w)
               - if e.bill < |bills| && bills[e.bill].wallet == w then bills[e.bill].amount else 0
  {
    if bills != [] {
      var b := |bills| - 1;
      OutstandingRefund(bills[..b], entries, e, w);
      CountAppend(entries, e, b, Credit);
    }
  }

  /** What a wallet holds plus what its unrefunded bills took. */
  function Worth(db: Db, w: WalletId): int
    requires w in db.available
  {
    db.available[w] + Outstanding(db.bills, db.entries, w)
  }

  function LedgerSum(entries: seq<Entry>, w: WalletId): int {
    if entries == [] then 0
    else
      var e := entries[|entries| - 1];
      LedgerSum(entries[..|entries| - 1], w)
      + if e.wallet != w then 0 else if e.kind == Credit then e.amount else -e.amount
  }

  lemma LedgerAppend(entries: seq<Entry>, e: Entry, w: WalletId)
    ensures LedgerSum(entries + [e], w)
            == LedgerSum(entries, w) + if e.wallet != w then 0 else if e.kind == Credit then e.amount else -e.amount
  {
    assert (entries + [e])[..|entries|] == entries;
  }

  lemma PurchaseKeepsWorth(db: Db, a: Action, w: WalletId)
    requires a.Purchase? && Records(db) && EntriesOnce(db) && w in db.available
    ensures Worth(Step(db, a), w) == Worth(db, w)
  {
    if CanPurchase(db, a) {
      var db' := StepPurchase(db, a);
      var n := |db.bills|;
      forall b: nat ensures Count(db'.entries, b, Credit) == Count(db.entries, b, Credit) {
        CountAppend(db.entries, db'.entries[|db.entries|], b, Credit);
      }
      assert db'.bills[..n] == db.bills;
      OutstandingSame(db.bills, db'.bills[..n], db.entries, db'.entries, w);
    }
  }

  lemma RefundKeepsWorth(db: Db, t: TaskId, w: WalletId)
    requires Records(db) && EntriesOnce(db) && w in db.available
    ensures Worth(StepSafeRefund(db, t), w) == Worth(db, w)
  {
    var db' := StepSafeRefund(db, t);
    if |db'.entries| > |db.entries| {
      var e := db'.entries[|db.entries|];
      LookupFindsRefund(db, e.bill);
      OutstandingRefund(db.bills, db.entries, e, w);
      OutstandingSame(db.bills, db'.bills, db'.entries, db'.entries, w);
    }
  }

  lemma StepKeepsWorth(db: Db, a: Action, w: WalletId)
    requires Records(db) && EntriesOnce(db) && w in db.available
    ensures w in Step(db, a).available
    ensures Worth(Step(db, a), w) == Worth(db, w)
  {
    StepKeepsRows(db, a);
    if a.Purchase? {
      PurchaseKeepsWorth(db, a, w);
    } else if a.SafeRefund? {
      RefundKeepsWorth(db, a.task, w);
    } else {
      OutstandingSame(db.bills, Step(db, a).bills, db.entries, Step(db, a).entries, w);
    }
  }

  lemma PurchaseKeepsLedgerGap(db: Db, a: Action, w: WalletId)
    requires a.Purchase? && CanPurchase(db, a) && w in db.available
    ensures StepPurchase(db, a).available[w] - LedgerSum(StepPurchase(db, a).entries, w)
            == db.available[w] - LedgerSum(db.entries, w)
  {
    LedgerAppend(db.entries, Entry(a.wallet, |db.bills|, Debit, a.amount, a.reference), w);
  }

  lemma RefundKeepsLedgerGap(db: Db, t: TaskId, w: WalletId)
    requires w in db.available && t in db.tasks
    ensures StepSafeRefund(db, t).available[w] - LedgerSum(StepSafeRefund(db, t).entries, w)
            == db.available[w] - LedgerSum(db.entries, w)
  {
    var k := db.tasks[t];
    LedgerAppend(db.entries, Entry(k.wallet, k.bill, Credit, k.amount, "REFUND-" + k.reference), w);
  }

  lemma StepKeepsLedgerGap(db: Db, a: Action, w: WalletId)
    requires w in db.available
    ensures w in Step(db, a).available
    ensures Step(db, a).available[w] - LedgerSum(Step(db, a).entries, w)
            == db.available[w] - LedgerSum(db.entries, w)
  {
    match a
    case Purchase(_, _, _, _, _, _, _, _, _) =>
      if CanPurchase(db, a) { PurchaseKeepsLedgerGap(db, a, w); }
    case SafeRefund(t) =>
      if t in db.tasks { RefundKeepsLedgerGap(db, t, w); }
    case _ =>
  }

  // ----- over whole runs

  ghost predicate NoOverdraft(db: Db) {
    forall w :: w in db.available ==> db.available[w] >= 0
  }

  ghost predicate MoneyInv(db: Db) {
    Records(db) && EntriesOnce(db) && NoOverdraft(db)
  }

  lemma OpeningIsGood(available: map<WalletId, int>)
    requires forall w :: w in available ==> available[w] >= 0
    ensures MoneyInv(Opening(available))
  {
  }

  /** Every interleaving keeps the records matched, each bill refunded at most once, and no balance below zero. */
  lemma {:induction false} RunKeepsMoneyInv(db: Db, actions: seq<Action>)
    requires MoneyInv(db)
    ensures MoneyInv(Run(db, actions))
  {
    if actions != [] {
      var before := Run(db, actions[..|actions| - 1]);
      RunKeepsMoneyInv(db, actions[..|actions| - 1]);
      StepKeepsRecords(before, actions[|actions| - 1]);
      match actions[|actions| - 1]
      case Purchase(_, _, _, _, _, _, _, _, _) => PurchaseKeepsEntriesOnce(before, actions[|actions| - 1]);
      case SafeRefund(t) => RefundKeepsEntriesOnce(before, t);
      case _ => OthersKeepEntriesOnce(before, actions[|actions| - 1]);
    }
  }

  /**
   Conservation: over any interleaving, what a wallet has available plus the amounts of its
   unrefunded bills never changes, nor does the gap between that balance and the ledger sum.
   */
  lemma {:induction false} RunConservesMoney(db: Db, actions: seq<Action>, w: WalletId)
    requires MoneyInv(db) && w in db.available
    ensures w in Run(db, actions).available
    ensures Worth(Run(db, actions), w) == Worth(db, w)
    ensures Run(db, actions).available[w] - LedgerSum(Run(db, actions).entries, w)
            == db.available[w] - LedgerSum(db.entries, w)
  {
    if actions != [] {
      var before := Run(db, actions[..|actions| - 1]);
      RunConservesMoney(db, actions[..|actions| - 1], w);
      RunKeepsMoneyInv(db, actions[..|actions| - 1]);
      StepKeepsWorth(before, actions[|actions| - 1], w);
      StepKeepsLedgerGap(before, actions[|actions| - 1], w);
    }
  }

  /**
   A refund, whether the job's copy of the bill or the stored row led to it, is single and gives
   the bill's wallet the very amount of the bill's own debit.
   */
  lemma RefundMirrorsDebit(available: map<WalletId, int>, actions: seq<Action>, i: nat, j: nat)
    requires forall w :: w in available ==> available[w] >= 0
    requires i < |Run(Opening(available), actions).entries|
    requires Run(Opening(available), actions).entries[i].kind == Credit
    requires j < |Run(Opening(available), actions).entries|
    requires Run(Opening(available), actions).entries[j].bill == Run(Opening(available), actions).entries[i].bill
    ensures var db := Run(Opening(available), actions);
            var e, d := db.entries[i], db.entries[j];
            && d.wallet == e.wallet && d.amount == e.amount
            && e.bill < |db.bills| && e.reference == "REFUND-" + db.bills[e.bill].reference
            && Count(db.entries, e.bill, Credit) == 1 && Count(db.entries, e.bill, Debit) == 1
  {
    OpeningIsGood(available);
    RunKeepsMoneyInv(Opening(available), actions);
    var db := Run(Opening(available), actions);
    CountZero(db.entries, db.entries[i].bill, Credit);
  }
}
