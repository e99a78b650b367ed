/**
 The bill service and the reconcile worker over a mutable store. Each method is the code
 between two awaits, proved to perform exactly one step of the protocol in BillsModel.
 */
module BillsService {
  import opened Common
  import opened ProviderReply
  import opened BillsModel
  import opened BillsMoney

  datatype PurchaseResult = InvalidAmount | Existing(bill: BillId) | LimitReached | InsufficientBalance | Started(bill: BillId)

  class BillStore {
    var available: map<WalletId, int>
    var bills: seq<Bill>
    var entries: seq<Entry>
    var queue: set<Job>
    var tasks: map<TaskId, Task>
    ghost var answers: seq<(BillId, Outcome)>
    ghost var delivered: set<BillId>
    ghost var delays: seq<seq<int>>

    ghost function State(): Db
      reads this
    {
      Db(available, bills, entries, queue, tasks, answers, delivered, delays)
    }

    constructor (balances: map<WalletId, int>)
      ensures State() == Opening(balances)
    {
      available, bills, entries, queue, tasks := balances, [], [], {}, map[];
      answers, delivered, delays := [], {}, [];
    }

    /** UPDATE ... WHERE available_balance >= amount; reports whether a row changed. */
    method AtomicDebit(wallet: WalletId, amount: int) returns (debited: bool)
      modifies this`available
      ensures debited <==> wallet in old(available) && old(available)[wallet] >= amount
      ensures available == if debited then old(available)[wallet := old(available)[wallet] - amount] else old(available)
    {
      debited := wallet in available && available[wallet] >= amount;
      if debited {
        available := available[wallet := available[wallet] - amount];
      }
    }

    method AtomicCredit(wallet: WalletId, amount: int)
      requires wallet in available
      modifies this`available
      ensures available == old(available)[wallet := old(available)[wallet] + amount]
    {
      available := available[wallet := available[wallet] + amount];
    }

    method SetStatus(bill: BillId, s: Status)
      requires bill < |bills|
      modifies this`bills
      ensures State() == WithStatus(old(State()), bill, s)
    {
      bills := bills[bill := bills[bill].(status := s)];
    }

    /**
     The lookup of safeRefundWallet, outside its transaction. In a store whose records match, it finds an
     entry exactly when the bill has been credited.
     */
    method FindRefund(bill: BillId, reference: string) returns (existing: bool)
      ensures existing <==> HasRefund(entries, bill, reference)
      ensures Records(State()) && bill < |bills| && bills[bill].reference == reference ==>
                (existing <==> Count(entries, bill, Credit) > 0)
    {
      existing := HasRefund(entries, bill, reference);
      if Records(State()) && bill < |bills| && bills[bill].reference == reference {
        LookupFindsRefund(State(), bill);
      }
    }

    /** The transaction of safeRefundWallet, which does not look again. */
    method RefundTransaction(wallet: WalletId, amount: int, bill: BillId, reference: string)
      requires bill < |bills| && wallet in available
      modifies this`available, this`entries, this`bills
      ensures State() == CreditRefund(old(State()), wallet, amount, bill, reference)
    {
      AtomicCredit(wallet, amount);
      entries := entries + [Entry(wallet, bill, Credit, amount, "REFUND-" + reference)];
      SetStatus(bill, Refunded);
    }

    method SafeRefundWallet(wallet: WalletId, amount: int, bill: BillId, reference: string)
      requires bill < |bills| && wallet in available
      modifies this`available, this`entries, this`bills
      ensures State() == PayOut(old(State()), wallet, amount, bill, reference)
    {
      var existing := FindRefund(bill, reference);
      if !existing {
        RefundTransaction(wallet, amount, bill, reference);
      }
    }

    /** The start of executePurchase, up to the provider call. */
    method ExecutePurchase(
        task: TaskId, user: UserId, wallet: WalletId, amount: int, reference: string,
        key: Option<string>, limit: int, today: int, now: int) returns (r: PurchaseResult)
      requires task !in tasks
      modifies this
      ensures State() == Step(old(State()), Purchase(task, user, wallet, amount, reference, key, limit, today, now))
      ensures r.Started? <==> CanPurchase(old(State()), Purchase(task, user, wallet, amount, reference, key, limit, today, now))
      ensures r.Started? ==> r.bill == |old(bills)|
      ensures r.Existing? ==> r.bill < |bills| && bills[r.bill].user == user && bills[r.bill].key == key
    {
      if amount <= 0 {
        return InvalidAmount;
      }
      if KeyUsed(bills, user, key) {
        var i :| 0 <= i < |bills| && bills[i].user == user && bills[i].key == key;
        return Existing(i);
      }
      if UsedToday(bills, wallet, today) + amount > limit {
        return LimitReached;
      }
      var debited := AtomicDebit(wallet, amount);
      if !debited {
        return InsufficientBalance;
      }
      var id := |bills|;
      bills := bills + [Bill(user, wallet, amount, reference, key, Processing, now)];
      entries := entries + [Entry(wallet, id, Debit, amount, reference)];
      tasks := tasks[task := Task(ByPurchase, id, wallet, amount, reference, Calling)];
      delays := delays + [[]];
      return Started(id);
    }

    /** The worker takes a job; true when it goes on to call the provider. */
    method StartReconcile(task: TaskId, job: Job) returns (calls: bool)
      requires job in queue && task !in tasks
      modifies this
      ensures State() == Step(old(State()), TakeJob(task, job))
      ensures calls <==> job.bill < |bills| && !IsResolved(bills[job.bill].status)
    {
      queue := queue - {job};
      if job.bill >= |bills| {
        return false;
      }
      var s := bills[job.bill].status;
      if s == StatusDelivered || s == Refunded || s == ReconciliationRequired {
        return false;
      }
      tasks := tasks[task := Task(ByWorker(job.attempt), job.bill, job.wallet, job.amount, job.reference, Calling)];
      return true;
    }

    method StartRequery(task: TaskId, user: UserId, bill: BillId) returns (calls: bool)
      requires task !in tasks
      modifies this
      ensures State() == Step(old(State()), Requery(task, user, bill))
      ensures calls <==> bill < |bills| && bills[bill].user == user && bills[bill].status !in {StatusDelivered, Refunded}
    {
      if bill >= |bills| || bills[bill].user != user {
        return false;
      }
      var row := bills[bill];
      if row.status == StatusDelivered || row.status == Refunded {
        return false;
      }
      tasks := tasks[task := Task(ByUser, bill, row.wallet, row.amount, row.reference, Calling)];
      return true;
    }

    method ProviderReturns(task: TaskId, o: Outcome)
      requires task in tasks && tasks[task].stage == Calling
      modifies this
      ensures State() == Step(old(State()), Answer(task, o))
    {
      answers := answers + [(tasks[task].bill, o)];
      tasks := tasks[task := tasks[task].(stage := Answered(o))];
    }

    method GoOn(task: TaskId, stage: Stage)
      requires task in tasks
      modifies this`tasks
      ensures State() == WithStage(old(State()), task, stage)
    {
      tasks := tasks[task := tasks[task].(stage := stage)];
    }

    method End(task: TaskId)
      modifies this`tasks
      ensures State() == Ended(old(State()), task)
    {
      tasks := tasks - {task};
    }

    method FinalizeBillSuccess(task: TaskId)
      requires task in tasks && tasks[task].bill < |bills|
      modifies this
      ensures State() == Carry(old(State()), task, Plan(Some(StatusDelivered), None))
    {
      delivered := delivered + {tasks[task].bill};
      SetStatus(tasks[task].bill, StatusDelivered);
      End(task);
    }

    method FinalizeBillPending(task: TaskId)
      requires task in tasks && tasks[task].bill < |bills|
      modifies this
      ensures State() == Carry(old(State()), task, Plan(Some(AwaitingProvider), Some(Enqueueing(1))))
    {
      SetStatus(tasks[task].bill, AwaitingProvider);
      GoOn(task, Enqueueing(1));
    }

    method FinalizeBillRefunded(task: TaskId)
      requires task in tasks && tasks[task].bill < |bills|
      modifies this
      ensures State() == Carry(old(State()), task, Plan(Some(StatusFailed), Some(Refunding)))
    {
      SetStatus(tasks[task].bill, StatusFailed);
      GoOn(task, Refunding);
    }

    method FinalizeBillUncertain(task: TaskId)
      requires task in tasks && tasks[task].bill < |bills|
      modifies this
      ensures State() == Carry(old(State()), task, Plan(Some(ProviderUncertain), Some(Enqueueing(1))))
    {
      SetStatus(tasks[task].bill, ProviderUncertain);
      GoOn(task, Enqueueing(1));
    }

    /** The dispatch at the end of executePurchase. */
    method FinishPurchase(task: TaskId)
      requires task in tasks && tasks[task].bill < |bills| && tasks[task].stage.Answered? && tasks[task].caller == ByPurchase
      modifies this
      ensures State() == Step(old(State()), Finalize(task))
    {
      var o := tasks[task].stage.outcome;
      var providerCallFailed := o.Threw?;
      if providerCallFailed || IsMalformed(o.r) {
        FinalizeBillUncertain(task);
      } else if IsDelivered(o.r) {
        FinalizeBillSuccess(task);
      } else if IsPending(o.r) {
        FinalizeBillPending(task);
      } else {
        FinalizeBillRefunded(task);
      }
    }

    /** The dispatch of one reconcile attempt. */
    method FinishReconcile(task: TaskId)
      requires task in tasks && tasks[task].bill < |bills| && tasks[task].stage.Answered? && tasks[task].caller.ByWorker?
      modifies this
      ensures State() == Step(old(State()), Finalize(task))
    {
      var attempt := tasks[task].caller.attempt;
      var result := if tasks[task].stage.outcome.Threw? then Null else tasks[task].stage.outcome.r;
      if IsDelivered(result) {
        FinalizeBillSuccess(task);
        return;
      }
      if !IsMalformed(result) && !IsPending(result) {
        FinalizeBillRefunded(task);
        return;
      }
      if attempt >= MAX_ATTEMPTS {
        SetStatus(tasks[task].bill, ReconciliationRequired);
        End(task);
        return;
      }
      GoOn(task, Enqueueing(attempt + 1));
    }

    /** The dispatch of a user's requery; a throw ends the request. */
    method FinishRequery(task: TaskId)
      requires task in tasks && tasks[task].bill < |bills| && tasks[task].stage.Answered? && tasks[task].caller == ByUser
      modifies this
      ensures State() == Step(old(State()), Finalize(task))
    {
      if tasks[task].stage.outcome.Threw? {
        End(task);
        return;
      }
      var result := tasks[task].stage.outcome.r;
      var delivered := IsDelivered(result);
      var failed := !delivered && !IsPending(result) && !IsMalformed(result);
      if delivered {
        FinalizeBillSuccess(task);
      } else if failed {
        FinalizeBillRefunded(task);
      } else {
        End(task);
      }
    }

    method PayRefund(task: TaskId)
      requires task in tasks && tasks[task].bill < |bills| && tasks[task].stage == Refunding
      requires tasks[task].wallet in available
      modifies this
      ensures State() == Step(old(State()), SafeRefund(task))
    {
      var t := tasks[task];
      SafeRefundWallet(t.wallet, t.amount, t.bill, t.reference);
      End(task);
    }

    method EnqueueReconcile(task: TaskId)
      requires task in tasks && tasks[task].stage.Enqueueing? && tasks[task].bill < |delays|
      modifies this
      ensures State() == Step(old(State()), Enqueue(task))
    {
      var t := tasks[task];
      queue := queue + {Job(t.bill, t.wallet, t.amount, t.reference, t.stage.attempt)};
      delays := delays[t.bill := delays[t.bill] + [DelayMs(t.stage.attempt)]];
      End(task);
    }
  }
}
