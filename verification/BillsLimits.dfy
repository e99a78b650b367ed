/** When a purchase may start, what each start does, and how far a wallet's bills of one day can pass its limit. */
module BillsLimits {
  import opened Common
  import opened ProviderReply
  import opened BillsModel
  import opened BillsMoney

  // ----- the start of a purchase

  /** Paid back, about to be, or handed to a person: a bill that no longer counts. */
  predicate GivenUp(b: Bill) {
    b.status == StatusFailed || b.status == Refunded || b.status == ReconciliationRequired
  }

  /** A bill of the wallet, made since `today`, that may still go through or has. */
  predicate IsOpen(b: Bill, wallet: WalletId, today: int) {
    b.wallet == wallet && today <= b.createdAt && !GivenUp(b)
  }

  /** What the wallet's open bills come to. */
  function OpenToday(bills: seq<Bill>, wallet: WalletId, today: int): int {
    if bills == [] then 0
    else
      var b := bills[|bills| - 1];
      OpenToday(bills[..|bills| - 1], wallet, today) + if IsOpen(b, wallet, today) then b.amount else 0
  }

  lemma {:induction false} UsedIsOpen(bills: seq<Bill>, wallet: WalletId, today: int)
    ensures UsedToday(bills, wallet, today) == OpenToday(bills, wallet, today)
  {
    if bills != [] {
      UsedIsOpen(bills[..|bills| - 1], wallet, today);
    }
  }

  ghost predicate MayStart(db: Db, a: Action)
    requires a.Purchase?
  {
    && a.task !in db.tasks && a.amount > 0
    && (a.key.Some? ==> forall i :: 0 <= i < |db.bills| && db.bills[i].user == a.user ==> db.bills[i].key != a.key)
    && OpenToday(db.bills, a.wallet, a.today) + a.amount <= a.limit
    && a.wallet in db.available && a.amount <= db.available[a.wallet]
  }

  /**
   A purchase starts exactly when its key is new to the user, its amount fits what the wallet's open bills of
   the day leave of the limit, and the balance covers it. Then the wallet alone is debited, and the bill, its
   debit entry and the caller all carry that wallet, amount and reference. Otherwise nothing happens.
   */
  lemma PurchaseStartsIff(db: Db, a: Action)
    requires a.Purchase?
    ensures var after, id := Step(db, a), |db.bills|;
            && (!MayStart(db, a) ==> after == db)
            && (MayStart(db, a) ==>
                  && after.available.Keys == db.available.Keys
                  && (forall w :: w in db.available ==>
                        after.available[w] == db.available[w] - if w == a.wallet then a.amount else 0)
                  && after.bills == db.bills + [Bill(a.user, a.wallet, a.amount, a.reference, a.key, Processing, a.now)]
                  && after.entries == db.entries + [Entry(a.wallet, id, Debit, a.amount, a.reference)]
                  && after.tasks == db.tasks[a.task := Task(ByPurchase, id, a.wallet, a.amount, a.reference, Calling)]
                  && after.delays == db.delays + [[]]
                  && after.jobs == db.jobs && after.answers == db.answers && after.delivered == db.delivered)
  {
    UsedIsOpen(db.bills, a.wallet, a.today);
  }

  // ----- the day's limit over a whole run

  lemma OpenAppend(bills: seq<Bill>, b: Bill, wallet: WalletId, today: int)
    ensures OpenToday(bills + [b], wallet, today)
            == OpenToday(bills, wallet, today) + if IsOpen(b, wallet, today) then b.amount else 0
  {
    assert (bills + [b])[..|bills|] == bills;
  }

  lemma {:induction false} OpenUpdate(bills: seq<Bill>, id: BillId, s: Status, wallet: WalletId, today: int)
    requires id < |bills|
    ensures var b := bills[id].(status := s);
            OpenToday(bills[id := b], wallet, today)
            == OpenToday(bills, wallet, today)
               + (if IsOpen(b, wallet, today) then b.amount else 0)
               - (if IsOpen(bills[id], wallet, today) then b.amount else 0)
  {
    var n, later := |bills| - 1, bills[id := bills[id].(status := s)];
    if id < n {
      OpenUpdate(bills[..n], id, s, wallet, today);
      assert later[..n] == bills[..n][id := bills[id].(status := s)];
    } else {
      assert later[..n] == bills[..n];
    }
  }

  /** The amount of a bill that was given up and that this step counts again: an answer to a later call decides so. */
  function RevivedBy(db: Db, a: Action, wallet: WalletId, today: int): int {
    if !a.Finalize? || a.task !in db.tasks || db.tasks[a.task].bill >= |db.bills| then 0
    else
      var id, after := db.tasks[a.task].bill, Step(db, a);
      if id < |after.bills| && GivenUp(db.bills[id]) && IsOpen(after.bills[id], wallet, today)
      then after.bills[id].amount
      else 0
  }

  function Revived(db: Db, actions: seq<Action>, wallet: WalletId, today: int): int {
    if actions == [] then 0
    else
      var n := |actions| - 1;
      Revived(db, actions[..n], wallet, today) + RevivedBy(Run(db, actions[..n]), actions[n], wallet, today)
  }

  /**
   Every purchase of the wallet is held to this limit or a lower one, over bills since this moment. Airtime and
   other bills have limits of their own, and each is held against the bills of both kinds.
   */
  ghost predicate UnderLimit(actions: seq<Action>, wallet: WalletId, limit: int, today: int) {
    forall i :: 0 <= i < |actions| && actions[i].Purchase? && actions[i].wallet == wallet ==>
      actions[i].limit <= limit && actions[i].today == today
  }

  lemma FinalizeKeepsOpen(db: Db, t: TaskId, wallet: WalletId, today: int)
    requires Records(db)
    ensures OpenToday(StepFinalize(db, t).bills, wallet, today)
            <= OpenToday(db.bills, wallet, today) + RevivedBy(db, Finalize(t), wallet, today)
    ensures RevivedBy(db, Finalize(t), wallet, today) >= 0
  {
    if t in db.tasks && db.tasks[t].stage.Answered? {
      var plan, id := PlanFor(db.tasks[t]), db.tasks[t].bill;
      if plan.status.Some? {
        OpenUpdate(db.bills, id, plan.status.value, wallet, today);
      }
    }
  }

  lemma RefundKeepsOpen(db: Db, t: TaskId, wallet: WalletId, today: int)
    requires Records(db)
    ensures OpenToday(StepSafeRefund(db, t).bills, wallet, today) <= OpenToday(db.bills, wallet, today)
  {
    if t in db.tasks && db.tasks[t].stage == Refunding {
      OpenUpdate(db.bills, db.tasks[t].bill, Refunded, wallet, today);
    }
  }

  lemma StepKeepsLimit(db: Db, a: Action, wallet: WalletId, limit: int, today: int, revived: int)
    requires Records(db) && revived >= 0 && UnderLimit([a], wallet, limit, today)
    requires OpenToday(db.bills, wallet, today) <= limit + revived
    ensures RevivedBy(db, a, wallet, today) >= 0
    ensures OpenToday(Step(db, a).bills, wallet, today) <= limit + revived + RevivedBy(db, a, wallet, today)
  {
    match a
    case Purchase(_, _, _, _, _, _, _, _, _) =>
      PurchaseStartsIff(db, a);
      assert [a][0] == a;
      OpenAppend(db.bills, Bill(a.user, a.wallet, a.amount, a.reference, a.key, Processing, a.now), wallet, today);
    case Finalize(t) => FinalizeKeepsOpen(db, t, wallet, today);
    case SafeRefund(t) => RefundKeepsOpen(db, t, wallet, today);
    case _ =>
  }

  /**
   In any interleaving a wallet's open bills of a day pass its limit by no more than the given-up bills that
   a later answer has brought back. Without such an answer they stay within the limit.
   */
  lemma {:induction false} DayStaysWithinLimit(db: Db, actions: seq<Action>, wallet: WalletId, limit: int, today: int)
    requires MoneyInv(db) && OpenToday(db.bills, wallet, today) <= limit
    requires UnderLimit(actions, wallet, limit, today)
    ensures Revived(db, actions, wallet, today) >= 0
    ensures OpenToday(Run(db, actions).bills, wallet, today) <= limit + Revived(db, actions, wallet, today)
  {
    if actions != [] {
      var n := |actions| - 1;
      DayStaysWithinLimit(db, actions[..n], wallet, limit, today);
      RunKeepsMoneyInv(db, actions[..n]);
      StepKeepsLimit(Run(db, actions[..n]), actions[n], wallet, limit, today, Revived(db, actions[..n], wallet, today));
    }
  }

  // ----- a run that passes the limit

  const REFUSED: Outcome := Replied(Obj(map["code" := Str("016")]))
  const CONFIRMED: Outcome := Replied(Obj(map["code" := Str("000")]))

  function Buy(task: TaskId, reference: string): Action {
    Purchase(task, 0, 0, 60, reference, None, 100, 0, 0)
  }

  /** A purchase of 60 is refused and refunded, another 60 are spent, and the first's requery is told of a delivery. */
  const LATE: seq<Action> := [
    Buy(0, "A"), Requery(1, 0, 0), Answer(0, REFUSED), Finalize(0), SafeRefund(0),
    Buy(2, "B"), Answer(1, CONFIRMED), Finalize(1)]

  const PURSE: Db := Opening(map[0 := 200])

  function Bought(reference: string, s: Status): Bill {
    Bill(0, 0, 60, reference, None, s, 0)
  }

  function AtWork(caller: Caller, stage: Stage): Task {
    Task(caller, 0, 0, 60, "A", stage)
  }

  const SPENT: Entry := Entry(0, 0, Debit, 60, "A")
  const RETURNED: Entry := Entry(0, 0, Credit, 60, "REFUND-" + "A")

  const S1: Db := Db(
    map[0 := 140], [Bought("A", Processing)], [SPENT], {}, map[0 := AtWork(ByPurchase, Calling)], [], {}, [[]])
  const S2: Db := S1.(tasks := map[0 := AtWork(ByPurchase, Calling), 1 := AtWork(ByUser, Calling)])
  const S3: Db := S2.(answers := [(0, REFUSED)],
    tasks := map[0 := AtWork(ByPurchase, Answered(REFUSED)), 1 := AtWork(ByUser, Calling)])
  const S4: Db := S3.(bills := [Bought("A", StatusFailed)],
    tasks := map[0 := AtWork(ByPurchase, Refunding), 1 := AtWork(ByUser, Calling)])
  const S5: Db := S4.(tasks := map[1 := AtWork(ByUser, Calling)], bills := [Bought("A", Refunded)],
    entries := [SPENT, RETURNED], available := map[0 := 200])
  const SECOND: Task := Task(ByPurchase, 1, 0, 60, "B", Calling)
  const S6: Db := S5.(tasks := map[1 := AtWork(ByUser, Calling), 2 := SECOND], available := map[0 := 140],
    bills := [Bought("A", Refunded), Bought("B", Processing)],
    entries := [SPENT, RETURNED, Entry(0, 1, Debit, 60, "B")], delays := [[], []])
  const S7: Db := S6.(answers := [(0, REFUSED), (0, CONFIRMED)],
    tasks := map[1 := AtWork(ByUser, Answered(CONFIRMED)), 2 := SECOND])
  const S8: Db := S7.(tasks := map[2 := SECOND], delivered := {0},
    bills := [Bought("A", StatusDelivered), Bought("B", Processing)])

  lemma OneStep(n: nat, before: Db, after: Db)
    requires n < |LATE| && Run(PURSE, LATE[..n]) == before && Step(before, LATE[n]) == after
    ensures Run(PURSE, LATE[..n + 1]) == after
  {
    assert LATE[..n + 1][..n] == LATE[..n];
  }

  lemma AnswersPlan(task: Task)
    ensures task.stage == Answered(CONFIRMED) ==> PlanFor(task) == Plan(Some(StatusDelivered), None)
    ensures task.stage == Answered(REFUSED) ==> PlanFor(task) == Plan(Some(StatusFailed), Some(Refunding))
  {
  }

  lemma DeliveryIsCarried()
    ensures Carry(S7, 1, Plan(Some(StatusDelivered), None)) == S8
  {
  }

  lemma FirstStarts()
    ensures Run(PURSE, LATE[..1]) == S1
  {
    assert LATE[..0] == [];
    assert Step(PURSE, LATE[0]) == S1 by {
      PurchaseStartsIff(PURSE, LATE[0]);
    }
    OneStep(0, PURSE, S1);
  }

  lemma RequeryJoins()
    ensures Run(PURSE, LATE[..2]) == S2
  {
    FirstStarts();
    assert Step(S1, LATE[1]) == S2;
    OneStep(1, S1, S2);
  }

  lemma RefusalComes()
    ensures Run(PURSE, LATE[..3]) == S3
  {
    RequeryJoins();
    assert Step(S2, LATE[2]) == S3;
    OneStep(2, S2, S3);
  }

  lemma RefusalIsWritten()
    ensures Run(PURSE, LATE[..4]) == S4
  {
    RefusalComes();
    assert Step(S3, LATE[3]) == S4 by {
      AnswersPlan(S3.tasks[0]);
    }
    OneStep(3, S3, S4);
  }

  lemma MoneyReturns()
    ensures Run(PURSE, LATE[..5]) == S5
  {
    RefusalIsWritten();
    assert Step(S4, LATE[4]) == S5 by {
      assert SPENT.kind == Debit;
    }
    OneStep(4, S4, S5);
  }

  lemma SecondStarts()
    ensures Run(PURSE, LATE[..6]) == S6
  {
    MoneyReturns();
    assert Step(S5, LATE[5]) == S6 by {
      assert OpenToday([], 0, 0) == 0 && [Bought("A", Refunded)][..0] == [];
      PurchaseStartsIff(S5, LATE[5]);
    }
    OneStep(5, S5, S6);
  }

  lemma ConfirmationComes()
    ensures Run(PURSE, LATE[..7]) == S7
  {
    SecondStarts();
    assert Step(S6, LATE[6]) == S7;
    OneStep(6, S6, S7);
  }

  lemma ConfirmationIsWritten()
    ensures Run(PURSE, LATE[..8]) == S8
  {
    ConfirmationComes();
    assert Step(S7, LATE[7]) == S8 by {
      AnswersPlan(S7.tasks[1]);
      DeliveryIsCarried();
    }
    OneStep(7, S7, S8);
  }

  /** A bill that was refused and refunded comes back when a requery that ran beside it is told of a delivery. */
  lemma DayCanPassLimit()
    ensures UnderLimit(LATE, 0, 100, 0) && OpenToday(Run(PURSE, LATE).bills, 0, 0) == 120
  {
    ConfirmationIsWritten();
    assert LATE[..8] == LATE;
    var one := [Bought("A", StatusDelivered)];
    assert [] + one == one && S8.bills == one + [Bought("B", Processing)];
    OpenAppend([], one[0], 0, 0);
    OpenAppend(one, Bought("B", Processing), 0, 0);
  }
}
