/**
 The life of one bill in any interleaving: who drives it, how its reconcile jobs are numbered,
 where it comes to rest, and what the provider must have said for it to get there.
 */
module BillsProtocol {
  import opened Common
  import opened ProviderReply
  import opened BillsModel
  import opened BillsMoney

  // ----- a bill has one driver at a time

  predicate Automatic(task: Task) {
    task.caller != ByUser
  }

  /** The purchase, the queued job and the worker's attempt of a bill exclude each other. */
  ghost predicate OneDriver(db: Db) {
    && (forall t, u :: t in db.tasks && u in db.tasks && t != u && Automatic(db.tasks[t]) && Automatic(db.tasks[u])
          ==> db.tasks[t].bill != db.tasks[u].bill)
    && (forall j, k :: j in db.jobs && k in db.jobs && j != k ==> j.bill != k.bill)
    && (forall t, j :: t in db.tasks && j in db.jobs && Automatic(db.tasks[t]) ==> db.tasks[t].bill != j.bill)
    && (forall t :: t in db.tasks && db.tasks[t].stage.Enqueueing? ==> Automatic(db.tasks[t]))
  }

  /** What the four dispatch branches have in common, whoever takes them. */
  predicate PlanFits(task: Task, plan: Plan)
    requires task.stage.Answered?
  {
    && (plan.status == Some(StatusDelivered) <==> Means(task.stage.outcome, Delivered))
    && (plan.status == Some(StatusFailed) <==> Means(task.stage.outcome, Failed))
    && (plan.next == Some(Refunding) <==> plan.status == Some(StatusFailed))
    && plan.status != Some(Refunded)
    && (plan.next.Some? ==> plan.next.value == Refunding || plan.next.value.Enqueueing?)
    && (plan.next.Some? && plan.next.value.Enqueueing? ==>
          && Automatic(task)
          && plan.next.value.attempt == (if task.caller.ByWorker? then task.caller.attempt + 1 else 1)
          && (task.caller.ByWorker? ==> task.caller.attempt < MAX_ATTEMPTS))
    && (plan.next.None? && Automatic(task) ==> plan.status in {Some(StatusDelivered), Some(ReconciliationRequired)})
    && (!Automatic(task) ==> plan.status in {None, Some(StatusDelivered), Some(StatusFailed)})
  }

  lemma PlansFit(task: Task)
    requires task.stage.Answered?
    ensures PlanFits(task, PlanFor(task))
  {
    SitesAgree(task.stage.outcome, if task.caller.ByWorker? then task.caller.attempt else 0);
    VerdictsPartitionOutcomes(task.stage.outcome, Delivered, Failed);
  }

  // ----- a dispatch follows the fields of the reply

  /** The bill has this status, and nothing else in the table has changed. */
  ghost predicate StatusIsNow(before: seq<Bill>, after: seq<Bill>, bill: BillId, s: Status) {
    && bill < |before| == |after|
    && after[bill] == before[bill].(status := s)
    && forall b :: 0 <= b < |before| && b != bill ==> after[b] == before[b]
  }

  ghost predicate OtherTasksStay(before: map<TaskId, Task>, after: map<TaskId, Task>, t: TaskId) {
    forall u :: u != t ==> (u in after <==> u in before) && (u in before ==> after[u] == before[u])
  }

  /** This work is over. */
  ghost predicate IsOver(before: Db, after: Db, t: TaskId) {
    t !in after.tasks && OtherTasksStay(before.tasks, after.tasks, t)
  }

  /** This work has moved on to the stage, with all it carries. */
  ghost predicate GoesOn(before: Db, after: Db, t: TaskId, stage: Stage) {
    && t in before.tasks && t in after.tasks && after.tasks[t] == before.tasks[t].(stage := stage)
    && OtherTasksStay(before.tasks, after.tasks, t)
  }

  /** A dispatch itself moves no money and queues nothing. */
  ghost predicate MovesNothing(before: Db, after: Db) {
    && after.available == before.available && after.entries == before.entries
    && after.jobs == before.jobs && after.answers == before.answers && after.delays == before.delays
  }

  /** Carrying a plan out writes its status, if any, to the bill, moves the work on, and touches nothing else. */
  lemma CarriedOut(db: Db, t: TaskId, plan: Plan)
    requires t in db.tasks && db.tasks[t].bill < |db.bills|
    ensures var b, after := db.tasks[t].bill, Carry(db, t, plan);
            && MovesNothing(db, after)
            && (plan.status.Some? ==> StatusIsNow(db.bills, after.bills, b, plan.status.value))
            && (plan.status.None? ==> after.bills == db.bills)
            && (if plan.next.Some? then GoesOn(db, after, t, plan.next.value) else IsOver(db, after, t))
            && after.delivered == if plan.status == Some(StatusDelivered) then db.delivered + {b} else db.delivered
  {
  }

  /** What each site plans for a reply that decides nothing, or a throw. */
  ghost function WaitingPlan(task: Task): Plan
    requires task.stage.Answered?
  {
    var o := task.stage.outcome;
    match task.caller
    case ByPurchase =>
      Plan(Some(if o.Replied? && SaysPending(o.r) then AwaitingProvider else ProviderUncertain), Some(Enqueueing(1)))
    case ByWorker(n) =>
      if n < 6 then Plan(None, Some(Enqueueing(n + 1))) else Plan(Some(ReconciliationRequired), None)
    case ByUser => Plan(None, None)
  }

  /** What each site plans, from the fields of the reply. */
  lemma PlanFollowsReply(task: Task)
    requires task.stage.Answered?
    ensures var o, plan := task.stage.outcome, PlanFor(task);
            if o.Replied? && SaysDelivered(o.r) then plan == Plan(Some(StatusDelivered), None)
            else if o.Replied? && SaysFailed(o.r) then plan == Plan(Some(StatusFailed), Some(Refunding))
            else plan == WaitingPlan(task)
  {
    if task.stage.outcome.Replied? {
      ReplyMeansWhatItSays(task.stage.outcome.r);
    }
  }

  /** At all three sites a delivery is written when the reply says so, and the refund is next exactly when it refuses. */
  lemma DecisionsFollowReply(db: Db, t: TaskId)
    requires t in db.tasks && db.tasks[t].stage.Answered? && db.tasks[t].bill < |db.bills|
    ensures var o, b, after := db.tasks[t].stage.outcome, db.tasks[t].bill, Step(db, Finalize(t));
            && MovesNothing(db, after)
            && (o.Replied? && SaysDelivered(o.r) ==>
                  && StatusIsNow(db.bills, after.bills, b, StatusDelivered) && IsOver(db, after, t)
                  && after.delivered == db.delivered + {b})
            && (o.Replied? && SaysFailed(o.r) <==>
                  StatusIsNow(db.bills, after.bills, b, StatusFailed) && GoesOn(db, after, t, Refunding))
            && (!(o.Replied? && SaysDelivered(o.r)) ==> after.delivered == db.delivered)
  {
    PlanFollowsReply(db.tasks[t]);
    CarriedOut(db, t, PlanFor(db.tasks[t]));
  }

  /** What the purchase, the worker and the user's requery each do with a reply that decides nothing, or with a throw. */
  lemma WaitingFollowsReply(db: Db, t: TaskId)
    requires t in db.tasks && db.tasks[t].stage.Answered? && db.tasks[t].bill < |db.bills|
    requires var o := db.tasks[t].stage.outcome; o.Replied? ==> !SaysDelivered(o.r) && !SaysFailed(o.r)
    ensures var task, after := db.tasks[t], Step(db, Finalize(t));
            var o, b := task.stage.outcome, task.bill;
            && (task.caller.ByPurchase? ==>
                  && GoesOn(db, after, t, Enqueueing(1))
                  && (o.Replied? && SaysPending(o.r) ==> StatusIsNow(db.bills, after.bills, b, AwaitingProvider))
                  && (!(o.Replied? && SaysPending(o.r)) ==> StatusIsNow(db.bills, after.bills, b, ProviderUncertain)))
            && (task.caller.ByWorker? && task.caller.attempt < 6 ==>
                  GoesOn(db, after, t, Enqueueing(task.caller.attempt + 1)) && after.bills == db.bills)
            && (task.caller.ByWorker? && task.caller.attempt >= 6 ==>
                  IsOver(db, after, t) && StatusIsNow(db.bills, after.bills, b, ReconciliationRequired))
            && (task.caller.ByUser? ==> IsOver(db, after, t) && after.bills == db.bills)
  {
    PlanFollowsReply(db.tasks[t]);
    CarriedOut(db, t, PlanFor(db.tasks[t]));
  }

  /** A task whose answer is in, and a plan for it. */
  ghost predicate ReadyToCarry(db: Db, t: TaskId, plan: Plan) {
    && t in db.tasks && db.tasks[t].stage.Answered? && db.tasks[t].bill < |db.bills|
    && PlanFits(db.tasks[t], plan)
  }

  lemma CarryKeepsOneDriver(db: Db, t: TaskId, plan: Plan)
    requires OneDriver(db) && ReadyToCarry(db, t, plan)
    ensures OneDriver(Carry(db, t, plan))
  {
  }

  lemma StartKeepsOneDriver(db: Db, a: Action)
    requires Records(db) && OneDriver(db) && (a.Purchase? || a.TakeJob? || a.Requery?)
    ensures OneDriver(Step(db, a))
  {
    forall u | u in db.tasks ensures db.tasks[u].bill < |db.bills| {
      assert DescribesBill(db.bills, db.tasks[u].bill, db.tasks[u].wallet, db.tasks[u].amount, db.tasks[u].reference);
    }
  }

  lemma ProgressKeepsOneDriver(db: Db, a: Action)
    requires OneDriver(db) && (a.Answer? || a.SafeRefund? || a.Enqueue?)
    ensures OneDriver(Step(db, a))
  {
  }

  lemma StepKeepsOneDriver(db: Db, a: Action)
    requires Records(db) && OneDriver(db)
    ensures OneDriver(Step(db, a))
  {
    match a
    case Finalize(t) =>
      if t in db.tasks && db.tasks[t].stage.Answered? {
        PlansFit(db.tasks[t]);
        CarryKeepsOneDriver(db, t, PlanFor(db.tasks[t]));
      }
    case Answer(_, _) => ProgressKeepsOneDriver(db, a);
    case SafeRefund(_) => ProgressKeepsOneDriver(db, a);
    case Enqueue(_) => ProgressKeepsOneDriver(db, a);
    case _ => StartKeepsOneDriver(db, a);
  }

  // ----- attempts are numbered 1, 2, ... 6 and carry the scheduled delays

  predicate NumberFits(task: Task, scheduled: nat) {
    && (task.caller.ByPurchase? ==> scheduled == 0)
    && (task.caller.ByWorker? ==> task.caller.attempt == scheduled && 1 <= scheduled <= MAX_ATTEMPTS)
    && (task.stage.Enqueueing? ==> task.stage.attempt == scheduled + 1 <= MAX_ATTEMPTS)
  }

  ghost predicate Numbered(db: Db) {
    && (forall b :: 0 <= b < |db.delays| ==>
          |db.delays[b]| <= MAX_ATTEMPTS && db.delays[b] == RECONCILE_DELAYS_MS[..|db.delays[b]|])
    && (forall j :: j in db.jobs ==>
          j.bill < |db.delays| && j.attempt == |db.delays[j.bill]| && 1 <= j.attempt <= MAX_ATTEMPTS)
    && (forall t :: t in db.tasks ==>
          db.tasks[t].bill < |db.delays| && NumberFits(db.tasks[t], |db.delays[db.tasks[t].bill]|))
  }

  lemma CarryKeepsNumbered(db: Db, t: TaskId, plan: Plan)
    requires Numbered(db) && |db.delays| == |db.bills| && ReadyToCarry(db, t, plan)
    ensures Numbered(Carry(db, t, plan))
  {
    var db' := Carry(db, t, plan);
    forall u | u in db'.tasks
      ensures db'.tasks[u].bill < |db'.delays| && NumberFits(db'.tasks[u], |db'.delays[db'.tasks[u].bill]|)
    {
      assert NumberFits(db.tasks[u], |db.delays[db.tasks[u].bill]|);
    }
  }

  lemma EnqueueKeepsNumbered(db: Db, t: TaskId)
    requires Records(db) && OneDriver(db) && Numbered(db) && t in db.tasks && db.tasks[t].stage.Enqueueing?
    ensures Numbered(StepEnqueue(db, t))
  {
    var db' := StepEnqueue(db, t);
    var b := db.tasks[t].bill;
    var n := |db.delays[b]|;
    assert NumberFits(db.tasks[t], n);
    assert RECONCILE_DELAYS_MS[..n + 1] == RECONCILE_DELAYS_MS[..n] + [DelayMs(n + 1)];
    forall u | u in db'.tasks
      ensures db'.tasks[u].bill < |db'.delays| && NumberFits(db'.tasks[u], |db'.delays[db'.tasks[u].bill]|)
    {
      assert NumberFits(db.tasks[u], |db.delays[db.tasks[u].bill]|);
    }
  }

  // ----- what the other steps do, in terms of the bill's own row

  predicate NeedsNoWork(s: Status) {
    s in {StatusDelivered, Refunded, ReconciliationRequired}
  }

  /** The worker takes its job off the queue and calls the provider for the bill exactly when the bill is not settled. */
  lemma JobCallsIff(db: Db, t: TaskId, job: Job)
    requires Records(db) && job in db.jobs && t !in db.tasks
    ensures var after, b := Step(db, TakeJob(t, job)), db.bills[job.bill];
            && after.jobs == db.jobs - {job} && after.bills == db.bills
            && after.available == db.available && after.entries == db.entries && after.delays == db.delays
            && after.tasks == if NeedsNoWork(b.status) then db.tasks
               else db.tasks[t := Task(ByWorker(job.attempt), job.bill, b.wallet, b.amount, b.reference, Calling)]
  {
    assert DescribesBill(db.bills, job.bill, job.wallet, job.amount, job.reference);
  }

  /** A requery calls the provider exactly for a bill of the user's own that is neither delivered nor refunded. */
  lemma RequeryCallsIff(db: Db, t: TaskId, user: UserId, bill: BillId)
    requires t !in db.tasks
    ensures var after := Step(db, Requery(t, user, bill));
            if bill < |db.bills| && db.bills[bill].user == user && db.bills[bill].status !in {StatusDelivered, Refunded}
            then var b := db.bills[bill];
                 after == db.(tasks := db.tasks[t := Task(ByUser, bill, b.wallet, b.amount, b.reference, Calling)])
            else after == db
  {
  }

  /** A refund pays the bill's amount into the bill's wallet exactly when the bill has no credit, and is then over. */
  lemma RefundPaysIff(db: Db, t: TaskId)
    requires Records(db) && t in db.tasks && db.tasks[t].stage == Refunding
    ensures var after, id := Step(db, SafeRefund(t)), db.tasks[t].bill;
            var b := db.bills[id];
            && IsOver(db, after, t) && after.jobs == db.jobs && after.delays == db.delays
            && after.available.Keys == db.available.Keys
            && if Count(db.entries, id, Credit) > 0
               then after.available == db.available && after.entries == db.entries && after.bills == db.bills
               else
                 && (forall w :: w in db.available ==>
                       after.available[w] == db.available[w] + if w == b.wallet then b.amount else 0)
                 && after.entries == db.entries + [Entry(b.wallet, id, Credit, b.amount, "REFUND-" + b.reference)]
                 && StatusIsNow(db.bills, after.bills, id, Refunded)
  {
    var task := db.tasks[t];
    assert DescribesBill(db.bills, task.bill, task.wallet, task.amount, task.reference);
    LookupFindsRefund(db, task.bill);
  }

  /** How long a reconcile job of each number waits. */
  function Minutes(attempt: int): int {
    match attempt
    case 1 => 1
    case 2 => 5
    case 3 => 15
    case 4 => 30
    case 5 => 60
    case _ => 360
  }

  /** A held or retried bill gets one job of the number its task has come to, after that number's wait. */
  lemma RetryIsQueued(db: Db, t: TaskId)
    requires Records(db) && Numbered(db) && t in db.tasks && db.tasks[t].stage.Enqueueing?
    ensures var after, id, n := Step(db, Enqueue(t)), db.tasks[t].bill, db.tasks[t].stage.attempt;
            var b := db.bills[id];
            && IsOver(db, after, t) && after.bills == db.bills
            && after.available == db.available && after.entries == db.entries
            && after.jobs == db.jobs + {Job(id, b.wallet, b.amount, b.reference, n)}
            && |after.delays| == |db.delays| && after.delays[id] == db.delays[id] + [Minutes(n) * 60 * 1000]
            && forall c :: 0 <= c < |db.delays| && c != id ==> after.delays[c] == db.delays[c]
  {
    var task := db.tasks[t];
    assert DescribesBill(db.bills, task.bill, task.wallet, task.amount, task.reference);
    assert NumberFits(task, |db.delays[task.bill]|);
  }

  /** A step that adds no delay to any bill keeps the numbering if its new tasks and jobs fit it. */
  lemma NumberingCarriesOver(db: Db, db': Db)
    requires Numbered(db) && db.delays <= db'.delays
    requires forall b :: |db.delays| <= b < |db'.delays| ==> db'.delays[b] == []
    requires forall j :: j in db'.jobs ==> j in db.jobs
    requires forall t :: t in db'.tasks ==>
               || (t in db.tasks && db'.tasks[t].bill == db.tasks[t].bill && db'.tasks[t].caller == db.tasks[t].caller
                   && (db'.tasks[t].stage.Enqueueing? ==> db'.tasks[t].stage == db.tasks[t].stage))
               || (db'.tasks[t].bill < |db'.delays| && NumberFits(db'.tasks[t], |db'.delays[db'.tasks[t].bill]|))
    ensures Numbered(db')
  {
    forall t | t in db'.tasks
      ensures db'.tasks[t].bill < |db'.delays| && NumberFits(db'.tasks[t], |db'.delays[db'.tasks[t].bill]|)
    {
      if t in db.tasks {
        assert NumberFits(db.tasks[t], |db.delays[db.tasks[t].bill]|);
      }
    }
  }

  lemma PurchaseKeepsNumbered(db: Db, a: Action)
    requires Records(db) && Numbered(db) && a.Purchase?
    ensures Numbered(Step(db, a))
  {
    NumberingCarriesOver(db, Step(db, a));
  }

  lemma StartKeepsNumbered(db: Db, a: Action)
    requires Records(db) && Numbered(db) && (a.TakeJob? || a.Requery?)
    ensures Numbered(Step(db, a))
  {
    NumberingCarriesOver(db, Step(db, a));
  }

  lemma OtherStepsKeepNumbered(db: Db, a: Action)
    requires Records(db) && Numbered(db) && (a.Answer? || a.SafeRefund?)
    ensures Numbered(Step(db, a))
  {
    NumberingCarriesOver(db, Step(db, a));
  }

  lemma StepKeepsNumbered(db: Db, a: Action)
    requires Records(db) && OneDriver(db) && Numbered(db)
    ensures Numbered(Step(db, a))
  {
    match a
    case Finalize(t) =>
      if t in db.tasks && db.tasks[t].stage.Answered? {
        PlansFit(db.tasks[t]);
        CarryKeepsNumbered(db, t, PlanFor(db.tasks[t]));
      }
    case Enqueue(t) =>
      if t in db.tasks && db.tasks[t].stage.Enqueueing? { EnqueueKeepsNumbered(db, t); }
    case Answer(_, _) => OtherStepsKeepNumbered(db, a);
    case SafeRefund(_) => OtherStepsKeepNumbered(db, a);
    case Purchase(_, _, _, _, _, _, _, _, _) => PurchaseKeepsNumbered(db, a);
    case _ => StartKeepsNumbered(db, a);
  }

  // ----- where an undriven bill rests

  predicate Drives(task: Task, bill: BillId) {
    task.bill == bill && Automatic(task) && task.stage != Refunding
  }

  /** A job is queued for the bill, or its purchase or a worker has yet to settle its status. */
  ghost predicate Driven(db: Db, bill: BillId) {
    || (exists j :: j in db.jobs && j.bill == bill)
    || (exists t :: t in db.tasks && Drives(db.tasks[t], bill))
  }

  ghost predicate BeingRefunded(db: Db, bill: BillId) {
    exists t :: t in db.tasks && db.tasks[t].bill == bill && db.tasks[t].stage == Refunding
  }

  ghost predicate Settled(db: Db) {
    && (forall b :: 0 <= b < |db.bills| ==>
          db.bills[b].status in {StatusDelivered, StatusFailed, Refunded, ReconciliationRequired} || Driven(db, b))
    && (forall b :: 0 <= b < |db.bills| && db.bills[b].status == StatusFailed ==>
          Count(db.entries, b, Credit) > 0 || BeingRefunded(db, b))
    && (forall b :: 0 <= b < |db.bills| && db.bills[b].status == Refunded ==> Count(db.entries, b, Credit) > 0)
  }

  /** A bill keeps its driver as long as the driver's task or job is still there. */
  lemma StillDriven(db: Db, db': Db, b: BillId)
    requires Driven(db, b)
    requires forall j :: j in db.jobs && j.bill == b ==> j in db'.jobs || Driven(db', b)
    requires forall t :: t in db.tasks && Drives(db.tasks[t], b) ==>
               (t in db'.tasks && Drives(db'.tasks[t], b)) || Driven(db', b)
    ensures Driven(db', b)
  {
  }

  lemma StillRefunding(db: Db, db': Db, b: BillId)
    requires BeingRefunded(db, b)
    requires forall t :: t in db.tasks && db.tasks[t].bill == b && db.tasks[t].stage == Refunding ==>
               t in db'.tasks && db'.tasks[t].bill == b && db'.tasks[t].stage == Refunding
    ensures BeingRefunded(db', b)
  {
  }

  lemma PurchaseKeepsSettled(db: Db, a: Action)
    requires a.Purchase? && Records(db) && EntriesOnce(db) && Settled(db) && CanPurchase(db, a)
    ensures Settled(Step(db, a))
  {
    var db' := Step(db, a);
    assert Drives(db'.tasks[a.task], |db.bills|);
    forall b | 0 <= b < |db.bills|
      ensures Driven(db, b) ==> Driven(db', b)
      ensures BeingRefunded(db, b) ==> BeingRefunded(db', b)
      ensures Count(db'.entries, b, Credit) == Count(db.entries, b, Credit)
    {
      CountAppend(db.entries, db'.entries[|db.entries|], b, Credit);
      if Driven(db, b) { StillDriven(db, db', b); }
      if BeingRefunded(db, b) { StillRefunding(db, db', b); }
    }
  }

  lemma TakeJobKeepsSettled(db: Db, t: TaskId, job: Job)
    requires Records(db) && Settled(db) && job in db.jobs && t !in db.tasks
    ensures Settled(StepTakeJob(db, t, job))
  {
    var db' := StepTakeJob(db, t, job);
    assert t in db'.tasks ==> Drives(db'.tasks[t], job.bill);
    forall b | 0 <= b < |db.bills|
      ensures Driven(db, b) && !(b == job.bill && IsResolved(db.bills[b].status)) ==> Driven(db', b)
      ensures BeingRefunded(db, b) ==> BeingRefunded(db', b)
    {
      if Driven(db, b) && !(b == job.bill && IsResolved(db.bills[b].status)) { StillDriven(db, db', b); }
      if BeingRefunded(db, b) { StillRefunding(db, db', b); }
    }
  }

  /** Carrying out a plan leaves every other bill's driver in place, and every refund under way. */
  lemma CarryKeepsDrivers(db: Db, t: TaskId, plan: Plan)
    requires ReadyToCarry(db, t, plan)
    ensures var bill := db.tasks[t].bill;
            && (forall b: BillId :: Driven(db, b) && b != bill ==> Driven(Carry(db, t, plan), b))
            && (forall b: BillId :: BeingRefunded(db, b) ==> BeingRefunded(Carry(db, t, plan), b))
            && (Driven(db, bill) && !Automatic(db.tasks[t]) ==> Driven(Carry(db, t, plan), bill))
  {
    var db', task := Carry(db, t, plan), db.tasks[t];
    forall b: BillId | Driven(db, b) && b != task.bill ensures Driven(db', b) {
      StillDriven(db, db', b);
    }
    forall b: BillId | BeingRefunded(db, b) ensures BeingRefunded(db', b) {
      StillRefunding(db, db', b);
    }
    if Driven(db, task.bill) && !Automatic(task) { StillDriven(db, db', task.bill); }
  }

  lemma CarryKeepsSettled(db: Db, t: TaskId, plan: Plan)
    requires Settled(db) && ReadyToCarry(db, t, plan)
    ensures Settled(Carry(db, t, plan))
  {
    var db', task := Carry(db, t, plan), db.tasks[t];
    CarryKeepsDrivers(db, t, plan);
    assert t in db'.tasks && Automatic(task) && db'.tasks[t].stage != Refunding ==> Drives(db'.tasks[t], task.bill);
    assert plan.next == Some(Refunding) ==> t in db'.tasks && db'.tasks[t].bill == task.bill && db'.tasks[t].stage == Refunding;
  }

  lemma RefundKeepsDrivers(db: Db, t: TaskId)
    requires t in db.tasks && db.tasks[t].stage == Refunding && db.tasks[t].bill < |db.bills|
    ensures forall b: BillId :: Driven(db, b) ==> Driven(StepSafeRefund(db, t), b)
    ensures forall b: BillId :: BeingRefunded(db, b) && b != db.tasks[t].bill ==> BeingRefunded(StepSafeRefund(db, t), b)
  {
    var db' := StepSafeRefund(db, t);
    assert db'.tasks == db.tasks - {t} && db'.jobs == db.jobs;
    forall b: BillId | Driven(db, b) ensures Driven(db', b) {
      StillDriven(db, db', b);
    }
    forall b: BillId | BeingRefunded(db, b) && b != db.tasks[t].bill ensures BeingRefunded(db', b) {
      StillRefunding(db, db', b);
    }
  }

  /** After safeRefundWallet its bill has a refund entry, and no bill has fewer than before. */
  lemma RefundCounts(db: Db, t: TaskId)
    requires Records(db) && t in db.tasks && db.tasks[t].stage == Refunding
    ensures db.tasks[t].bill < |db.bills| && Count(StepSafeRefund(db, t).entries, db.tasks[t].bill, Credit) > 0
    ensures forall b: BillId :: Count(StepSafeRefund(db, t).entries, b, Credit) >= Count(db.entries, b, Credit)
  {
    var task := db.tasks[t];
    LookupFindsRefund(db, task.bill);
    forall b: BillId
      ensures Count(db.entries + [Entry(task.wallet, task.bill, Credit, task.amount, "REFUND-" + task.reference)], b, Credit)
              == Count(db.entries, b, Credit) + if b == task.bill then 1 else 0
    {
      CountAppend(db.entries, Entry(task.wallet, task.bill, Credit, task.amount, "REFUND-" + task.reference), b, Credit);
    }
  }

  lemma RefundKeepsSettled(db: Db, t: TaskId)
    requires Records(db) && EntriesOnce(db) && Settled(db) && t in db.tasks && db.tasks[t].stage == Refunding
    ensures Settled(StepSafeRefund(db, t))
  {
    RefundCounts(db, t);
    RefundKeepsDrivers(db, t);
  }

  /** With the same bills and entries a state is as settled as its drivers and refunds are. */
  lemma SameTablesKeepSettled(db: Db, db': Db)
    requires Settled(db) && db'.bills == db.bills && db'.entries == db.entries
    requires forall b: BillId :: Driven(db, b) ==> Driven(db', b)
    requires forall b: BillId :: BeingRefunded(db, b) ==> BeingRefunded(db', b)
    ensures Settled(db')
  {
  }

  lemma EnqueueKeepsSettled(db: Db, t: TaskId)
    requires Records(db) && Settled(db)
    ensures Settled(StepEnqueue(db, t))
  {
    var db' := StepEnqueue(db, t);
    if db' != db {
      var k := db.tasks[t];
      assert Job(k.bill, k.wallet, k.amount, k.reference, k.stage.attempt) in db'.jobs;
      assert Driven(db', k.bill);
      forall b: BillId | Driven(db, b) ensures Driven(db', b) {
        StillDriven(db, db', b);
      }
      forall b: BillId | BeingRefunded(db, b) ensures BeingRefunded(db', b) {
        StillRefunding(db, db', b);
      }
      SameTablesKeepSettled(db, db');
    }
  }

  /** Steps that only touch tasks. */
  lemma TaskStepKeepsSettled(db: Db, a: Action)
    requires Settled(db) && (a.Requery? || a.Answer?)
    ensures Settled(Step(db, a))
  {
    var db' := Step(db, a);
    forall b: BillId | Driven(db, b) ensures Driven(db', b) {
      StillDriven(db, db', b);
    }
    forall b: BillId | BeingRefunded(db, b) ensures BeingRefunded(db', b) {
      StillRefunding(db, db', b);
    }
    SameTablesKeepSettled(db, db');
  }

  lemma FinalizeKeepsSettled(db: Db, t: TaskId)
    requires Records(db) && Settled(db)
    ensures Settled(StepFinalize(db, t))
  {
    if t in db.tasks && db.tasks[t].stage.Answered? {
      assert DescribesBill(db.bills, db.tasks[t].bill, db.tasks[t].wallet, db.tasks[t].amount, db.tasks[t].reference);
      PlansFit(db.tasks[t]);
      CarryKeepsSettled(db, t, PlanFor(db.tasks[t]));
    }
  }

  lemma StepKeepsSettled(db: Db, a: Action)
    requires Records(db) && EntriesOnce(db) && Numbered(db) && Settled(db)
    ensures Settled(Step(db, a))
  {
    match a
    case Purchase(_, _, _, _, _, _, _, _, _) =>
      if CanPurchase(db, a) { PurchaseKeepsSettled(db, a); }
    case TakeJob(t, job) =>
      if job in db.jobs && t !in db.tasks { TakeJobKeepsSettled(db, t, job); }
    case Finalize(t) => FinalizeKeepsSettled(db, t);
    case SafeRefund(t) =>
      if t in db.tasks && db.tasks[t].stage == Refunding { RefundKeepsSettled(db, t); }
    case Enqueue(t) => EnqueueKeepsSettled(db, t);
    case _ => TaskStepKeepsSettled(db, a);
  }

  // ----- what the provider said

  ghost predicate Heard(db: Db, bill: BillId, v: Verdict) {
    exists i :: 0 <= i < |db.answers| && db.answers[i].0 == bill && Means(db.answers[i].1, v)
  }

  ghost predicate IsAnswerOf(db: Db, bill: BillId, o: Outcome) {
    exists i :: 0 <= i < |db.answers| && db.answers[i] == (bill, o)
  }

  ghost predicate Truthful(db: Db) {
    && (forall t :: t in db.tasks && db.tasks[t].stage.Answered? ==>
          IsAnswerOf(db, db.tasks[t].bill, db.tasks[t].stage.outcome))
    && (forall t :: t in db.tasks && db.tasks[t].stage == Refunding ==> Heard(db, db.tasks[t].bill, Failed))
    && (forall b :: b in db.delivered ==> Heard(db, b, Delivered))
    && (forall b :: 0 <= b < |db.bills| && db.bills[b].status == StatusDelivered ==> b in db.delivered)
    && (forall b: BillId :: Count(db.entries, b, Credit) > 0 ==> Heard(db, b, Failed))
  }

  lemma HeardLater(db: Db, db': Db, b: BillId, v: Verdict)
    requires Heard(db, b, v) && db.answers <= db'.answers
    ensures Heard(db', b, v)
  {
    var i :| 0 <= i < |db.answers| && db.answers[i].0 == b && Means(db.answers[i].1, v);
    assert db'.answers[i] == db.answers[i];
  }

  lemma CarryKeepsTruthful(db: Db, t: TaskId, plan: Plan)
    requires Truthful(db) && ReadyToCarry(db, t, plan)
    ensures Truthful(Carry(db, t, plan))
  {
    var task := db.tasks[t];
    var db' := Carry(db, t, plan);
    var i :| 0 <= i < |db.answers| && db.answers[i] == (task.bill, task.stage.outcome);
    forall b: BillId, v: Verdict | Heard(db, b, v) ensures Heard(db', b, v) {
      HeardLater(db, db', b, v);
    }
    if plan.status == Some(StatusDelivered) { assert Heard(db', task.bill, Delivered); }
    if plan.status == Some(StatusFailed) { assert Heard(db', task.bill, Failed); }
  }

  lemma RefundKeepsTruthful(db: Db, t: TaskId)
    requires Records(db) && Truthful(db)
    ensures Truthful(StepSafeRefund(db, t))
  {
    var db' := StepSafeRefund(db, t);
    forall b: BillId, v: Verdict | Heard(db, b, v) ensures Heard(db', b, v) {
      HeardLater(db, db', b, v);
    }
    if |db'.entries| > |db.entries| {
      forall b: BillId ensures Count(db'.entries, b, Credit)
        == Count(db.entries, b, Credit) + if db.tasks[t].bill == b then 1 else 0
      {
        CountAppend(db.entries, db'.entries[|db.entries|], b, Credit);
      }
    }
  }

  lemma PurchaseKeepsTruthful(db: Db, a: Action)
    requires Truthful(db) && a.Purchase? && CanPurchase(db, a)
    ensures Truthful(StepPurchase(db, a))
  {
    var db' := StepPurchase(db, a);
    forall b: BillId, v: Verdict | Heard(db, b, v) ensures Heard(db', b, v) {
      HeardLater(db, db', b, v);
    }
    forall b: BillId ensures Count(db'.entries, b, Credit) == Count(db.entries, b, Credit) {
      CountAppend(db.entries, db'.entries[|db.entries|], b, Credit);
    }
  }

  lemma AnswerKeepsTruthful(db: Db, t: TaskId, o: Outcome)
    requires Truthful(db)
    ensures Truthful(StepAnswer(db, t, o))
  {
    var db' := StepAnswer(db, t, o);
    forall b: BillId, v: Verdict | Heard(db, b, v) ensures Heard(db', b, v) {
      HeardLater(db, db', b, v);
    }
    forall b: BillId, v: Outcome | IsAnswerOf(db, b, v) ensures IsAnswerOf(db', b, v) {
      var i :| 0 <= i < |db.answers| && db.answers[i] == (b, v);
      assert db'.answers[i] == db.answers[i];
    }
    if t in db.tasks && db.tasks[t].stage == Calling {
      assert db'.answers[|db.answers|] == (db.tasks[t].bill, o);
    }
  }

  lemma QuietStepKeepsTruthful(db: Db, a: Action)
    requires Truthful(db) && (a.TakeJob? || a.Requery? || a.Answer? || a.Enqueue?)
    ensures Truthful(Step(db, a))
  {
    if a.Answer? {
      AnswerKeepsTruthful(db, a.task, a.outcome);
    } else {
      forall b: BillId, v: Verdict | Heard(db, b, v) ensures Heard(Step(db, a), b, v) {
        HeardLater(db, Step(db, a), b, v);
      }
    }
  }

  lemma StepKeepsTruthful(db: Db, a: Action)
    requires Records(db) && Truthful(db)
    ensures Truthful(Step(db, a))
  {
    match a
    case Purchase(_, _, _, _, _, _, _, _, _) =>
      if CanPurchase(db, a) { PurchaseKeepsTruthful(db, a); }
    case Finalize(t) =>
      if t in db.tasks && db.tasks[t].stage.Answered? {
        PlansFit(db.tasks[t]);
        CarryKeepsTruthful(db, t, PlanFor(db.tasks[t]));
      }
    case SafeRefund(t) => RefundKeepsTruthful(db, t);
    case _ => QuietStepKeepsTruthful(db, a);
  }

  // ----- the protocol theorems

  ghost predicate ProtocolInv(db: Db) {
    MoneyInv(db) && OneDriver(db) && Numbered(db) && Settled(db) && Truthful(db)
  }

  lemma {:induction false} RunKeepsProtocolInv(available: map<WalletId, int>, actions: seq<Action>)
    requires forall w :: w in available ==> available[w] >= 0
    ensures ProtocolInv(Run(Opening(available), actions))
  {
    OpeningIsGood(available);
    RunKeepsMoneyInv(Opening(available), actions);
    if actions != [] {
      var before := Run(Opening(available), actions[..|actions| - 1]);
      RunKeepsProtocolInv(available, actions[..|actions| - 1]);
      StepKeepsOneDriver(before, actions[|actions| - 1]);
      StepKeepsNumbered(before, actions[|actions| - 1]);
      StepKeepsSettled(before, actions[|actions| - 1]);
      StepKeepsTruthful(before, actions[|actions| - 1]);
    }
  }

  /** At most one job is queued for a bill, its number is 1 to 6, and nothing else drives the bill meanwhile. */
  lemma OneQueuedJob(available: map<WalletId, int>, actions: seq<Action>, j: Job, k: Job)
    requires forall w :: w in available ==> available[w] >= 0
    requires j in Run(Opening(available), actions).jobs && k in Run(Opening(available), actions).jobs
    requires j.bill == k.bill
    ensures j == k && 1 <= j.attempt <= MAX_ATTEMPTS
    ensures forall t :: t in Run(Opening(available), actions).tasks
              && Automatic(Run(Opening(available), actions).tasks[t])
              ==> Run(Opening(available), actions).tasks[t].bill != j.bill
  {
    RunKeepsProtocolInv(available, actions);
  }

  /**
   The chain ends: the delays scheduled for a bill are a prefix of the six in the schedule, so no
   attempt number is queued twice and their sum is at most 28,260,000 ms.
   */
  lemma ChainIsBounded(available: map<WalletId, int>, actions: seq<Action>, bill: BillId)
    requires forall w :: w in available ==> available[w] >= 0
    requires bill < |Run(Opening(available), actions).bills|
    ensures bill < |Run(Opening(available), actions).delays|
    ensures var delays := Run(Opening(available), actions).delays[bill];
            && |delays| <= MAX_ATTEMPTS
            && delays == RECONCILE_DELAYS_MS[..|delays|]
            && Sum(delays) <= 28260000
  {
    RunKeepsProtocolInv(available, actions);
    PrefixSums(|Run(Opening(available), actions).delays[bill]|);
  }

  lemma {:induction false} PrefixSums(n: nat)
    requires n <= MAX_ATTEMPTS
    ensures Sum(RECONCILE_DELAYS_MS[..n]) == [0, 60000, 360000, 1260000, 3060000, 6660000, 28260000][n]
  {
    if n > 0 {
      PrefixSums(n - 1);
      assert RECONCILE_DELAYS_MS[..n][..n - 1] == RECONCILE_DELAYS_MS[..n - 1];
    }
  }

  /**
   A bill with no job queued and nobody working on it has come to rest: delivered, refunded,
   handed to manual reconciliation, or marked failed with its refund already paid.
   */
  lemma UndrivenBillIsResolved(available: map<WalletId, int>, actions: seq<Action>, bill: BillId)
    requires forall w :: w in available ==> available[w] >= 0
    requires bill < |Run(Opening(available), actions).bills|
    requires forall j :: j in Run(Opening(available), actions).jobs ==> j.bill != bill
    requires forall t :: t in Run(Opening(available), actions).tasks
               ==> Run(Opening(available), actions).tasks[t].bill != bill
    ensures var db := Run(Opening(available), actions);
            var status := db.bills[bill].status;
            && status in {StatusDelivered, StatusFailed, Refunded, ReconciliationRequired}
            && (status in {StatusFailed, Refunded} ==> Count(db.entries, bill, Credit) == 1)
  {
    RunKeepsProtocolInv(available, actions);
  }

  /** No refund without a well-formed refusal: a throw, a malformed, a pending or a delivered reply never pays one. */
  lemma RefundNeedsRefusal(available: map<WalletId, int>, actions: seq<Action>, bill: BillId)
    requires forall w :: w in available ==> available[w] >= 0
    requires Count(Run(Opening(available), actions).entries, bill, Credit) > 0
    ensures Heard(Run(Opening(available), actions), bill, Failed)
  {
    RunKeepsProtocolInv(available, actions);
  }

  /** The provider never both confirms and refuses the same bill. */
  ghost predicate ProviderConsistent(db: Db) {
    forall b: BillId :: !(Heard(db, b, Delivered) && Heard(db, b, Failed))
  }

  /** With a consistent provider no bill is ever both delivered and refunded, at any point of any run. */
  lemma NeverDeliveredAndRefunded(available: map<WalletId, int>, actions: seq<Action>, bill: BillId)
    requires forall w :: w in available ==> available[w] >= 0
    requires ProviderConsistent(Run(Opening(available), actions))
    ensures !(bill in Run(Opening(available), actions).delivered
              && Count(Run(Opening(available), actions).entries, bill, Credit) > 0)
  {
    RunKeepsProtocolInv(available, actions);
  }

  /** The action is the provider's answer `o` to a call made for the bill. */
  predicate AnswersFor(db: Db, a: Action, bill: BillId, o: Outcome) {
    && a.Answer? && a.outcome == o
    && a.task in db.tasks && db.tasks[a.task].bill == bill && db.tasks[a.task].stage == Calling
  }

  lemma StepRecordsAnswer(db: Db, a: Action)
    ensures Step(db, a).answers
            == if a.Answer? && a.task in db.tasks && db.tasks[a.task].stage == Calling
               then db.answers + [(db.tasks[a.task].bill, a.outcome)] else db.answers
  {
  }

  ghost predicate WasGiven(open: Db, actions: seq<Action>, bill: BillId, o: Outcome) {
    exists k :: 0 <= k < |actions| && AnswersFor(Run(open, actions[..k]), actions[k], bill, o)
  }

  lemma GivenStays(open: Db, actions: seq<Action>, bill: BillId, o: Outcome)
    requires actions != [] && WasGiven(open, actions[..|actions| - 1], bill, o)
    ensures WasGiven(open, actions, bill, o)
  {
    var before := actions[..|actions| - 1];
    var k :| 0 <= k < |before| && AnswersFor(Run(open, before[..k]), before[k], bill, o);
    assert before[..k] == actions[..k] && before[k] == actions[k];
  }

  lemma GivenNow(open: Db, actions: seq<Action>, bill: BillId, o: Outcome)
    requires actions != [] && AnswersFor(Run(open, actions[..|actions| - 1]), actions[|actions| - 1], bill, o)
    ensures WasGiven(open, actions, bill, o)
  {
  }

  /** Every recorded answer was given by the provider during the run, to a call made for that very bill. */
  lemma {:induction false} AnswersWereGiven(available: map<WalletId, int>, actions: seq<Action>, i: nat)
    requires i < |Run(Opening(available), actions).answers|
    ensures WasGiven(Opening(available), actions, Run(Opening(available), actions).answers[i].0,
                     Run(Opening(available), actions).answers[i].1)
  {
    var open, before, a := Opening(available), actions[..|actions| - 1], actions[|actions| - 1];
    var answer := Run(open, actions).answers[i];
    StepRecordsAnswer(Run(open, before), a);
    if i < |Run(open, before).answers| {
      AnswersWereGiven(available, before, i);
      GivenStays(open, actions, answer.0, answer.1);
    } else {
      GivenNow(open, actions, answer.0, answer.1);
    }
  }

  // ----- when a paid-out bill does not say so

  /** The last answer for the bill that decided anything was acted on when its refund was already paid. */
  predicate Overwritten(open: Db, actions: seq<Action>, bill: BillId) {
    actions != []
    && var before, a := Run(open, actions[..|actions| - 1]), actions[|actions| - 1];
       if Decided(before, a, bill).Some? then Count(before.entries, bill, Credit) > 0
       else Overwritten(open, actions[..|actions| - 1], bill)
  }

  predicate PaidButOtherwise(db: Db, bill: BillId) {
    Count(db.entries, bill, Credit) > 0 && bill < |db.bills| && db.bills[bill].status != Refunded
  }

  lemma CarryOverwrites(db: Db, t: TaskId, plan: Plan, bill: BillId)
    requires ReadyToCarry(db, t, plan)
    ensures PaidButOtherwise(Carry(db, t, plan), bill)
            <==> if db.tasks[t].bill == bill && plan.status.Some? then Count(db.entries, bill, Credit) > 0
                 else PaidButOtherwise(db, bill)
  {
  }

  lemma RefundRestores(db: Db, t: TaskId, bill: BillId)
    requires Records(db)
    ensures PaidButOtherwise(StepSafeRefund(db, t), bill) <==> PaidButOtherwise(db, bill)
  {
    if t in db.tasks && db.tasks[t].stage == Refunding {
      var k := db.tasks[t];
      LookupFindsRefund(db, k.bill);
      CountAppend(db.entries, Entry(k.wallet, k.bill, Credit, k.amount, "REFUND-" + k.reference), bill, Credit);
    }
  }

  lemma PurchaseLeavesStatus(db: Db, a: Action, bill: BillId)
    requires EntriesOnce(db) && a.Purchase? && CanPurchase(db, a)
    ensures PaidButOtherwise(StepPurchase(db, a), bill) <==> PaidButOtherwise(db, bill)
  {
    CountAppend(db.entries, Entry(a.wallet, |db.bills|, Debit, a.amount, a.reference), bill, Credit);
    assert bill >= |db.bills| ==> Count(db.entries, bill, Credit) == 0;
  }

  lemma OthersLeaveStatus(db: Db, a: Action, bill: BillId)
    requires EntriesOnce(db) && !a.Finalize? && !a.SafeRefund?
    ensures PaidButOtherwise(Step(db, a), bill) <==> PaidButOtherwise(db, bill)
  {
    if a.Purchase? && CanPurchase(db, a) {
      PurchaseLeavesStatus(db, a, bill);
    }
  }

  lemma StepOverwrites(db: Db, a: Action, bill: BillId)
    requires Records(db) && EntriesOnce(db)
    ensures PaidButOtherwise(Step(db, a), bill)
            <==> if Decided(db, a, bill).Some? then Count(db.entries, bill, Credit) > 0 else PaidButOtherwise(db, bill)
  {
    match a
    case Finalize(t) =>
      if t in db.tasks && db.tasks[t].stage.Answered? {
        assert DescribesBill(db.bills, db.tasks[t].bill, db.tasks[t].wallet, db.tasks[t].amount, db.tasks[t].reference);
        PlansFit(db.tasks[t]);
        CarryOverwrites(db, t, PlanFor(db.tasks[t]), bill);
      }
    case SafeRefund(t) => RefundRestores(db, t, bill);
    case _ => OthersLeaveStatus(db, a, bill);
  }

  /**
   At every moment of every run: a bill's refund is paid and its status does not say so if and only if the
   last answer that decided anything for it was acted on after the refund had been paid.
   */
  lemma {:induction false} PaidButOtherwiseIff(available: map<WalletId, int>, actions: seq<Action>, bill: BillId)
    requires forall w :: w in available ==> available[w] >= 0
    ensures PaidButOtherwise(Run(Opening(available), actions), bill) <==> Overwritten(Opening(available), actions, bill)
  {
    if actions != [] {
      var open, before := Opening(available), actions[..|actions| - 1];
      PaidButOtherwiseIff(available, before, bill);
      OpeningIsGood(available);
      RunKeepsMoneyInv(open, before);
      StepOverwrites(Run(open, before), actions[|actions| - 1], bill);
    }
  }

  /** So a bill says refunded exactly when its refund is paid and nothing was decided for it since. */
  lemma {:induction false} RefundedSaysPaid(available: map<WalletId, int>, actions: seq<Action>, bill: BillId)
    requires forall w :: w in available ==> available[w] >= 0
    requires bill < |Run(Opening(available), actions).bills|
    ensures Run(Opening(available), actions).bills[bill].status == Refunded
            <==> Count(Run(Opening(available), actions).entries, bill, Credit) == 1
                 && !Overwritten(Opening(available), actions, bill)
  {
    RunKeepsProtocolInv(available, actions);
    PaidButOtherwiseIff(available, actions, bill);
  }

  // ----- idempotency keys

  ghost predicate KeysOnce(bills: seq<Bill>) {
    forall i, j :: 0 <= i < j < |bills| && bills[i].user == bills[j].user && bills[i].key == bills[j].key
      ==> bills[i].key == None
  }

  /** However often a user repeats an idempotency key, it buys one bill. */
  lemma {:induction false} OneBillPerKey(available: map<WalletId, int>, actions: seq<Action>)
    ensures KeysOnce(Run(Opening(available), actions).bills)
  {
    if actions != [] {
      var a := actions[|actions| - 1];
      var before := Run(Opening(available), actions[..|actions| - 1]);
      OneBillPerKey(available, actions[..|actions| - 1]);
      StepKeepsRows(before, a);
      var after := Step(before, a);
      forall i, j | 0 <= i < j < |after.bills| && after.bills[i].user == after.bills[j].user
                    && after.bills[i].key == after.bills[j].key
        ensures after.bills[i].key == None
      {
        assert i < |before.bills| ==> after.bills[i].(status := before.bills[i].status) == before.bills[i];
        assert j < |before.bills| ==> after.bills[j].(status := before.bills[j].status) == before.bills[j];
      }
    }
  }

  // ----- when a paid-out bill rests as failed

  /** The status that acting on an answer for the bill is about to write. */
  function Decided(db: Db, a: Action, bill: BillId): Option<Status> {
    if a.Finalize? && a.task in db.tasks && db.tasks[a.task].stage.Answered?
       && db.tasks[a.task].bill == bill && bill < |db.bills|
    then PlanFor(db.tasks[a.task]).status
    else None
  }

  /**
   The last answer for the bill that decided anything was a refusal, and it was acted on when the refund
   entry that safeRefundWallet looks for was already there.
   */
  predicate LateRefusal(open: Db, actions: seq<Action>, bill: BillId) {
    actions != []
    && LateNow(Run(open, actions[..|actions| - 1]), actions[|actions| - 1], bill,
               LateRefusal(open, actions[..|actions| - 1], bill))
  }

  /** A failed status is either late, or a refund is on its way and none has been paid. */
  ghost predicate FailedExplained(db: Db, bill: BillId, late: bool) {
    && (late ==> bill < |db.bills| && db.bills[bill].status == StatusFailed && Count(db.entries, bill, Credit) > 0)
    && (bill < |db.bills| && db.bills[bill].status == StatusFailed && !late ==>
          BeingRefunded(db, bill) && Count(db.entries, bill, Credit) == 0)
  }

  function LateNow(db: Db, a: Action, bill: BillId, late: bool): bool {
    var decided := Decided(db, a, bill);
    if decided.Some? then decided.value == StatusFailed && Count(db.entries, bill, Credit) > 0 else late
  }

  lemma CarryExplained(db: Db, t: TaskId, plan: Plan, bill: BillId, late: bool, now: bool)
    requires ReadyToCarry(db, t, plan) && FailedExplained(db, bill, late)
    requires now == if db.tasks[t].bill == bill && plan.status.Some?
                    then plan.status.value == StatusFailed && Count(db.entries, bill, Credit) > 0 else late
    ensures FailedExplained(Carry(db, t, plan), bill, now)
  {
    var db' := Carry(db, t, plan);
    assert plan.status == Some(StatusFailed) ==>
        t in db'.tasks && db'.tasks[t].bill == db.tasks[t].bill && db'.tasks[t].stage == Refunding;
    if BeingRefunded(db, bill) {
      StillRefunding(db, db', bill);
    }
  }

  lemma FinalizeExplained(db: Db, t: TaskId, bill: BillId, late: bool)
    requires Records(db) && FailedExplained(db, bill, late)
    ensures FailedExplained(StepFinalize(db, t), bill, LateNow(db, Finalize(t), bill, late))
  {
    if t in db.tasks && db.tasks[t].stage.Answered? && db.tasks[t].bill < |db.bills| {
      PlansFit(db.tasks[t]);
      CarryExplained(db, t, PlanFor(db.tasks[t]), bill, late, LateNow(db, Finalize(t), bill, late));
    }
  }

  lemma RefundExplained(db: Db, t: TaskId, bill: BillId, late: bool)
    requires Records(db) && FailedExplained(db, bill, late)
    ensures FailedExplained(StepSafeRefund(db, t), bill, LateNow(db, SafeRefund(t), bill, late))
  {
    if t in db.tasks && db.tasks[t].stage == Refunding && db.tasks[t].bill < |db.bills| {
      var task := db.tasks[t];
      RefundKeepsDrivers(db, t);
      LookupFindsRefund(db, task.bill);
      CountAppend(db.entries, Entry(task.wallet, task.bill, Credit, task.amount, "REFUND-" + task.reference), bill, Credit);
    }
  }

  lemma PurchaseExplained(db: Db, a: Action, bill: BillId, late: bool)
    requires a.Purchase? && CanPurchase(db, a) && FailedExplained(db, bill, late)
    ensures FailedExplained(Step(db, a), bill, late)
  {
    CountAppend(db.entries, Step(db, a).entries[|db.entries|], bill, Credit);
    if BeingRefunded(db, bill) {
      StillRefunding(db, Step(db, a), bill);
    }
  }

  lemma QuietExplained(db: Db, a: Action, bill: BillId, late: bool)
    requires (a.TakeJob? || a.Requery? || a.Answer? || a.Enqueue?) && FailedExplained(db, bill, late)
    ensures FailedExplained(Step(db, a), bill, late)
  {
    if BeingRefunded(db, bill) {
      StillRefunding(db, Step(db, a), bill);
    }
  }

  lemma StepExplained(db: Db, a: Action, bill: BillId, late: bool)
    requires Records(db) && FailedExplained(db, bill, late)
    ensures FailedExplained(Step(db, a), bill, LateNow(db, a, bill, late))
  {
    match a
    case Finalize(t) => FinalizeExplained(db, t, bill, late);
    case SafeRefund(t) => RefundExplained(db, t, bill, late);
    case Purchase(_, _, _, _, _, _, _, _, _) =>
      if CanPurchase(db, a) { PurchaseExplained(db, a, bill, late); }
    case _ => QuietExplained(db, a, bill, late);
  }

  lemma {:induction false} RunExplainsFailed(available: map<WalletId, int>, actions: seq<Action>, bill: BillId)
    requires forall w :: w in available ==> available[w] >= 0
    ensures FailedExplained(Run(Opening(available), actions), bill, LateRefusal(Opening(available), actions, bill))
  {
    if actions != [] {
      var open, before := Opening(available), actions[..|actions| - 1];
      RunExplainsFailed(available, before, bill);
      OpeningIsGood(available);
      RunKeepsMoneyInv(open, before);
      StepExplained(Run(open, before), actions[|actions| - 1], bill, LateRefusal(open, before, bill));
    }
  }

  /**
   Exactly when a resting bill is delivered, refunded or handed to manual reconciliation: unless the
   last answer that decided anything was a refusal acted on after the refund had been paid.
   */
  lemma {:induction false} RestsResolvedIff(available: map<WalletId, int>, actions: seq<Action>, bill: BillId)
    requires forall w :: w in available ==> available[w] >= 0
    requires bill < |Run(Opening(available), actions).bills|
    requires forall j :: j in Run(Opening(available), actions).jobs ==> j.bill != bill
    requires forall t :: t in Run(Opening(available), actions).tasks
               ==> Run(Opening(available), actions).tasks[t].bill != bill
    ensures Run(Opening(available), actions).bills[bill].status in {StatusDelivered, Refunded, ReconciliationRequired}
            <==> !LateRefusal(Opening(available), actions, bill)
  {
    UndrivenBillIsResolved(available, actions, bill);
    RunExplainsFailed(available, actions, bill);
  }

  // ----- work on one bill that does not overlap

  predicate Idle(db: Db, bill: BillId) {
    forall t :: t in db.tasks ==> db.tasks[t].bill != bill
  }

  /** Work on a bill starts only when no other work on it is under way. */
  predicate StartsAlone(db: Db, a: Action) {
    match a
    case TakeJob(_, job) => Idle(db, job.bill)
    case Requery(_, _, bill) => Idle(db, bill)
    case _ => true
  }

  ghost predicate NoOverlap(db: Db, actions: seq<Action>) {
    forall n {:trigger actions[n]} :: 0 <= n < |actions| ==> StartsAlone(Run(db, actions[..n]), actions[n])
  }

  ghost predicate OneTask(db: Db) {
    && (forall t, u :: t in db.tasks && u in db.tasks && t != u ==> db.tasks[t].bill != db.tasks[u].bill)
    && (forall b :: 0 <= b < |db.bills| && Count(db.entries, b, Credit) > 0 ==>
          db.bills[b].status == Refunded && Idle(db, b))
    && (forall b :: 0 <= b < |db.bills| && db.bills[b].status == StatusFailed ==> BeingRefunded(db, b))
  }

  lemma PurchaseKeepsOneTask(db: Db, a: Action)
    requires Records(db) && EntriesOnce(db) && OneTask(db) && a.Purchase? && CanPurchase(db, a)
    ensures OneTask(StepPurchase(db, a))
  {
    var db' := StepPurchase(db, a);
    forall u | u in db.tasks ensures db.tasks[u].bill < |db.bills| {
      assert DescribesBill(db.bills, db.tasks[u].bill, db.tasks[u].wallet, db.tasks[u].amount, db.tasks[u].reference);
    }
    forall b: BillId ensures Count(db'.entries, b, Credit) == Count(db.entries, b, Credit) {
      CountAppend(db.entries, db'.entries[|db.entries|], b, Credit);
    }
    forall b | 0 <= b < |db.bills| && BeingRefunded(db, b) ensures BeingRefunded(db', b) {
      StillRefunding(db, db', b);
    }
  }

  lemma StartKeepsOneTask(db: Db, a: Action)
    requires OneTask(db) && StartsAlone(db, a) && (a.TakeJob? || a.Requery?)
    ensures OneTask(Step(db, a))
  {
    var db' := Step(db, a);
    assert db'.bills == db.bills && db'.entries == db.entries;
    forall b | 0 <= b < |db.bills| && BeingRefunded(db, b) ensures BeingRefunded(db', b) {
      StillRefunding(db, db', b);
    }
  }

  lemma ProgressKeepsOneTask(db: Db, a: Action)
    requires OneTask(db) && (a.Answer? || a.Enqueue?)
    ensures OneTask(Step(db, a))
  {
    var db' := Step(db, a);
    assert db'.bills == db.bills && db'.entries == db.entries;
    forall b | 0 <= b < |db.bills| && BeingRefunded(db, b) ensures BeingRefunded(db', b) {
      StillRefunding(db, db', b);
    }
  }

  lemma CarryKeepsOneTask(db: Db, t: TaskId, plan: Plan)
    requires OneTask(db) && ReadyToCarry(db, t, plan)
    ensures OneTask(Carry(db, t, plan))
  {
    var db' := Carry(db, t, plan);
    forall b | 0 <= b < |db.bills| && BeingRefunded(db, b) ensures BeingRefunded(db', b) {
      StillRefunding(db, db', b);
    }
    if plan.status == Some(StatusFailed) {
      assert db'.tasks[t].bill == db.tasks[t].bill && db'.tasks[t].stage == Refunding;
    }
  }

  lemma FirstRefundCounts(db: Db, t: TaskId, b: BillId)
    requires Records(db) && t in db.tasks && db.tasks[t].stage == Refunding && Count(db.entries, db.tasks[t].bill, Credit) == 0
    ensures Count(StepSafeRefund(db, t).entries, b, Credit)
            == Count(db.entries, b, Credit) + if db.tasks[t].bill == b then 1 else 0
  {
    var bill := db.bills[db.tasks[t].bill];
    RefundPaysIff(db, t);
    CountAppend(db.entries, Entry(bill.wallet, db.tasks[t].bill, Credit, bill.amount, "REFUND-" + bill.reference), b, Credit);
  }

  /** The bill is refunded, its task is over, and no other bill, task or entry has changed. */
  lemma PaidKeepsOneTask(db: Db, db': Db, t: TaskId)
    requires OneTask(db) && t in db.tasks && IsOver(db, db', t)
    requires StatusIsNow(db.bills, db'.bills, db.tasks[t].bill, Refunded)
    requires forall b: BillId :: b != db.tasks[t].bill ==> Count(db'.entries, b, Credit) == Count(db.entries, b, Credit)
    ensures OneTask(db')
  {
    forall b | 0 <= b < |db.bills| && b != db.tasks[t].bill && BeingRefunded(db, b) ensures BeingRefunded(db', b) {
      var u :| u in db.tasks && db.tasks[u].bill == b && db.tasks[u].stage == Refunding;
      assert db'.tasks[u] == db.tasks[u];
    }
  }

  lemma FirstRefundIs(db: Db, t: TaskId)
    requires Records(db) && t in db.tasks && db.tasks[t].stage == Refunding && Count(db.entries, db.tasks[t].bill, Credit) == 0
    ensures IsOver(db, StepSafeRefund(db, t), t)
    ensures StatusIsNow(db.bills, StepSafeRefund(db, t).bills, db.tasks[t].bill, Refunded)
    ensures forall b: BillId :: b != db.tasks[t].bill ==>
              Count(StepSafeRefund(db, t).entries, b, Credit) == Count(db.entries, b, Credit)
  {
    RefundPaysIff(db, t);
    forall b: BillId | b != db.tasks[t].bill
      ensures Count(StepSafeRefund(db, t).entries, b, Credit) == Count(db.entries, b, Credit)
    {
      FirstRefundCounts(db, t, b);
    }
  }

  lemma RefundKeepsOneTask(db: Db, t: TaskId)
    requires Records(db) && EntriesOnce(db) && OneTask(db) && t in db.tasks && db.tasks[t].stage == Refunding
    ensures OneTask(StepSafeRefund(db, t))
  {
    FirstRefundIs(db, t);
    PaidKeepsOneTask(db, StepSafeRefund(db, t), t);
  }

  lemma StepKeepsOneTask(db: Db, a: Action)
    requires Records(db) && EntriesOnce(db) && OneTask(db) && StartsAlone(db, a)
    ensures OneTask(Step(db, a))
  {
    match a
    case Finalize(t) =>
      if t in db.tasks && db.tasks[t].stage.Answered? {
        PlansFit(db.tasks[t]);
        CarryKeepsOneTask(db, t, PlanFor(db.tasks[t]));
      }
    case SafeRefund(t) =>
      if t in db.tasks && db.tasks[t].stage == Refunding { RefundKeepsOneTask(db, t); }
    case Purchase(_, _, _, _, _, _, _, _, _) =>
      if CanPurchase(db, a) { PurchaseKeepsOneTask(db, a); }
    case Answer(_, _) => ProgressKeepsOneTask(db, a);
    case Enqueue(_) => ProgressKeepsOneTask(db, a);
    case _ => StartKeepsOneTask(db, a);
  }

  lemma {:induction false} RunKeepsOneTask(available: map<WalletId, int>, actions: seq<Action>)
    requires forall w :: w in available ==> available[w] >= 0
    requires NoOverlap(Opening(available), actions)
    ensures OneTask(Run(Opening(available), actions))
  {
    if actions != [] {
      var n := |actions| - 1;
      var a := actions[n];
      var before := Run(Opening(available), actions[..n]);
      forall m | 0 <= m < n ensures StartsAlone(Run(Opening(available), actions[..n][..m]), actions[..n][m]) {
        assert actions[..n][..m] == actions[..m] && actions[m] == actions[..n][m];
      }
      RunKeepsOneTask(available, actions[..n]);
      OpeningIsGood(available);
      RunKeepsMoneyInv(Opening(available), actions[..n]);
      StepKeepsOneTask(before, a);
    }
  }

  /**
   When work on one bill never overlaps, a resting bill is delivered, refunded or handed to manual
   reconciliation, and it is refunded exactly when its status says so.
   */
  lemma WithoutOverlapStatusTellsAll(available: map<WalletId, int>, actions: seq<Action>, bill: BillId)
    requires forall w :: w in available ==> available[w] >= 0
    requires NoOverlap(Opening(available), actions)
    requires bill < |Run(Opening(available), actions).bills|
    requires Idle(Run(Opening(available), actions), bill)
    requires forall j :: j in Run(Opening(available), actions).jobs ==> j.bill != bill
    ensures var db := Run(Opening(available), actions);
            && db.bills[bill].status in {StatusDelivered, Refunded, ReconciliationRequired}
            && (db.bills[bill].status == Refunded <==> Count(db.entries, bill, Credit) == 1)
  {
    RunKeepsProtocolInv(available, actions);
    RunKeepsOneTask(available, actions);
  }

  // ----- what overlap can leave behind

  const REFUSAL: Outcome := Replied(Obj(map["code" := Str("016")]))

  /** A purchase whose user requeries before the provider has answered; both hear the same refusal. */
  const OVERLAP: seq<Action> := [
    Purchase(0, 7, 0, 40, "B", None, 100, 0, 0), Requery(1, 7, 0),
    Answer(0, REFUSAL), Answer(1, REFUSAL),
    Finalize(0), SafeRefund(0), Finalize(1), SafeRefund(1)]

  lemma RunStep(db: Db, actions: seq<Action>, n: nat)
    requires n < |actions|
    ensures Run(db, actions[..n + 1]) == Step(Run(db, actions[..n]), actions[n])
  {
    assert actions[..n + 1][..n] == actions[..n];
  }

  const OVERLAP_BILL: Bill := Bill(7, 0, 40, "B", None, Processing, 0)

  const OVERLAP_DEBIT: Entry := Entry(0, 0, Debit, 40, "B")

  function OverlapTask(caller: Caller, stage: Stage): Task {
    Task(caller, 0, 0, 40, "B", stage)
  }

  /** Both callers have their answer and neither has acted on it. */
  const BOTH_ANSWERED: Db := Db(
    map[0 := 60], [OVERLAP_BILL], [OVERLAP_DEBIT], {},
    map[0 := OverlapTask(ByPurchase, Answered(REFUSAL)), 1 := OverlapTask(ByUser, Answered(REFUSAL))],
    [(0, REFUSAL), (0, REFUSAL)], {}, [[]])

  /** The purchase has refunded; the requery is yet to act. */
  const ONE_REFUNDED: Db := BOTH_ANSWERED.(
    available := map[0 := 100], bills := [OVERLAP_BILL.(status := Refunded)],
    entries := [OVERLAP_DEBIT, Entry(0, 0, Credit, 40, "REFUND-" + "B")],
    tasks := map[1 := OverlapTask(ByUser, Answered(REFUSAL))])

  /** The purchase is waiting for the provider. */
  const BOUGHT: Db := Db(
    map[0 := 60], [OVERLAP_BILL], [OVERLAP_DEBIT], {}, map[0 := OverlapTask(ByPurchase, Calling)], [], {}, [[]])

  lemma OverlapBuys()
    ensures Step(Opening(map[0 := 100]), OVERLAP[0]) == BOUGHT
  {
    assert UsedToday([], 0, 0) == 0;
  }

  /** The user's requery is waiting too. */
  const REQUERIED: Db := BOUGHT.(tasks := map[0 := OverlapTask(ByPurchase, Calling), 1 := OverlapTask(ByUser, Calling)])

  const ONE_ANSWERED: Db := BOUGHT.(
    tasks := map[0 := OverlapTask(ByPurchase, Answered(REFUSAL)), 1 := OverlapTask(ByUser, Calling)],
    answers := [(0, REFUSAL)])

  lemma OverlapReachesPurchase()
    ensures Run(Opening(map[0 := 100]), OVERLAP[..1]) == BOUGHT
  {
    OverlapBuys();
    RunStep(Opening(map[0 := 100]), OVERLAP, 0);
  }

  lemma OverlapReachesRequery()
    ensures Run(Opening(map[0 := 100]), OVERLAP[..2]) == REQUERIED
  {
    OverlapReachesPurchase();
    RunStep(Opening(map[0 := 100]), OVERLAP, 1);
  }

  lemma FirstAnswerOfOverlap()
    ensures Step(REQUERIED, OVERLAP[2]) == ONE_ANSWERED
  {
  }

  lemma OverlapReachesAnswer()
    ensures Run(Opening(map[0 := 100]), OVERLAP[..3]) == ONE_ANSWERED
  {
    OverlapReachesRequery();
    FirstAnswerOfOverlap();
    RunStep(Opening(map[0 := 100]), OVERLAP, 2);
  }

  lemma OverlapReachesAnswers()
    ensures Run(Opening(map[0 := 100]), OVERLAP[..4]) == BOTH_ANSWERED
  {
    OverlapReachesAnswer();
    RunStep(Opening(map[0 := 100]), OVERLAP, 3);
  }

  lemma RefusalPlans(task: Task)
    requires task.stage == Answered(REFUSAL)
    ensures PlanFor(task) == Plan(Some(StatusFailed), Some(Refunding))
  {
    assert Means(REFUSAL, Failed);
    SitesAgree(REFUSAL, if task.caller.ByWorker? then task.caller.attempt else 0);
  }

  const FAILED_BILL: Bill := OVERLAP_BILL.(status := StatusFailed)

  /** The purchase has written its refusal down and is about to refund. */
  const ONE_REFUSED: Db := BOTH_ANSWERED.(bills := [FAILED_BILL],
    tasks := map[0 := OverlapTask(ByPurchase, Refunding), 1 := OverlapTask(ByUser, Answered(REFUSAL))])

  /** The requery has overwritten the refunded status and is about to find the refund. */
  const REFUSED_AGAIN: Db := ONE_REFUNDED.(bills := [FAILED_BILL], tasks := map[1 := OverlapTask(ByUser, Refunding)])

  lemma OverlapReachesRefusal()
    ensures Run(Opening(map[0 := 100]), OVERLAP[..5]) == ONE_REFUSED
  {
    OverlapReachesAnswers();
    RunStep(Opening(map[0 := 100]), OVERLAP, 4);
    RefusalPlans(BOTH_ANSWERED.tasks[0]);
  }

  lemma OverlapReachesRefund()
    ensures Run(Opening(map[0 := 100]), OVERLAP[..6]) == ONE_REFUNDED
  {
    OverlapReachesRefusal();
    RunStep(Opening(map[0 := 100]), OVERLAP, 5);
  }

  lemma OverlapReachesOverwrite()
    ensures Run(Opening(map[0 := 100]), OVERLAP[..7]) == REFUSED_AGAIN
  {
    OverlapReachesRefund();
    RunStep(Opening(map[0 := 100]), OVERLAP, 6);
    RefusalPlans(ONE_REFUNDED.tasks[1]);
  }

  lemma OverlapEnds()
    ensures Run(Opening(map[0 := 100]), OVERLAP[..8]) == ONE_REFUNDED.(bills := [FAILED_BILL], tasks := map[])
  {
    OverlapReachesOverwrite();
    RunStep(Opening(map[0 := 100]), OVERLAP, 7);
    assert IsRefundOf(REFUSED_AGAIN.entries[1], 0, "B");
  }

  /** Overlapping work can leave a paid-out bill marked failed for good: the refunded status is overwritten. */
  lemma OverlapLeavesFailed()
    ensures var db := Run(Opening(map[0 := 100]), OVERLAP);
            && |db.bills| == 1 && db.bills[0].status == StatusFailed
            && db.tasks == map[] && db.jobs == {} && db.available == map[0 := 100]
            && HasRefund(db.entries, 0, "B")
  {
    OverlapEnds();
    assert OVERLAP[..8] == OVERLAP;
    assert IsRefundOf(ONE_REFUNDED.entries[1], 0, "B");
  }
}
