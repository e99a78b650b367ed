/**
 Bill payments as a protocol: the state the database and the queue hold, and one
 total step for every stretch of code between two awaits. A disabled step changes
 nothing. BillsService holds the methods that perform these steps.
 */
module BillsModel {
  import opened Common
  import opened ProviderReply

  type WalletId = nat
  type UserId = nat
  type BillId = nat  // the position of the bill in the table
  type TaskId = nat

  datatype Status =
    | Processing
    | AwaitingProvider  // 'pending'
    | StatusDelivered
    | StatusFailed
    | Refunded
    | ProviderUncertain
    | ReconciliationRequired

  datatype Bill = Bill(
    user: UserId, wallet: WalletId, amount: int, reference: string,
    key: Option<string>, status: Status, createdAt: int)

  datatype Kind = Credit | Debit

  datatype Entry = Entry(wallet: WalletId, bill: BillId, kind: Kind, amount: int, reference: string)

  datatype Job = Job(bill: BillId, wallet: WalletId, amount: int, reference: string, attempt: int)

  /** Who runs a piece of code that is between two awaits, and how far it has come. */
  datatype Caller = ByPurchase | ByWorker(attempt: int) | ByUser
  datatype Stage = Calling | Answered(outcome: Outcome) | Refunding | Enqueueing(attempt: int)
  datatype Task = Task(
    caller: Caller, bill: BillId, wallet: WalletId, amount: int, reference: string, stage: Stage)

  /**
   `answers`, `delivered` and `delays` are history: the outcomes the provider gave, the
   bills ever finalized as delivered, and the delays scheduled for each bill so far.
   */
  datatype Db = Db(
    available: map<WalletId, int>,
    bills: seq<Bill>,
    entries: seq<Entry>,
    jobs: set<Job>,
    tasks: map<TaskId, Task>,
    answers: seq<(BillId, Outcome)>,
    delivered: set<BillId>,
    delays: seq<seq<int>>)

  const RECONCILE_DELAYS_MS: seq<int> := [60000, 300000, 900000, 1800000, 3600000, 21600000]

  function DelayMs(attempt: int): int {
    if 0 <= attempt - 1 < |RECONCILE_DELAYS_MS| then RECONCILE_DELAYS_MS[attempt - 1]
    else RECONCILE_DELAYS_MS[|RECONCILE_DELAYS_MS| - 1]
  }

  predicate IsResolved(s: Status) {
    s == StatusDelivered || s == Refunded || s == ReconciliationRequired
  }

  /** The statuses that count against a daily bill limit. */
  predicate CountsToday(b: Bill, wallet: WalletId, today: int) {
    && b.wallet == wallet
    && b.status in {StatusDelivered, AwaitingProvider, Processing, ProviderUncertain}
    && b.createdAt >= today
  }

  function UsedToday(bills: seq<Bill>, wallet: WalletId, today: int): int {
    if bills == [] then 0
    else
      UsedToday(bills[..|bills| - 1], wallet, today)
      + if CountsToday(bills[|bills| - 1], wallet, today) then bills[|bills| - 1].amount else 0
  }

  predicate IsRefundOf(e: Entry, bill: BillId, reference: string) {
    e.bill == bill && e.kind == Credit && e.reference == "REFUND-" + reference
  }

  predicate HasRefund(entries: seq<Entry>, bill: BillId, reference: string) {
    exists i :: 0 <= i < |entries| && IsRefundOf(entries[i], bill, reference)
  }

  datatype Action =
    | Purchase(task: TaskId, user: UserId, wallet: WalletId, amount: int, reference: string,
               key: Option<string>, limit: int, today: int, now: int)
    | TakeJob(task: TaskId, job: Job)
    | Requery(task: TaskId, user: UserId, bill: BillId)
    | Answer(task: TaskId, outcome: Outcome)
    | Finalize(task: TaskId)
    | SafeRefund(task: TaskId)
    | Enqueue(task: TaskId)

  function WithStatus(db: Db, bill: BillId, s: Status): Db
    requires bill < |db.bills|
  {
    db.(bills := db.bills[bill := db.bills[bill].(status := s)])
  }

  function WithStage(db: Db, t: TaskId, stage: Stage): Db
    requires t in db.tasks
  {
    db.(tasks := db.tasks[t := db.tasks[t].(stage := stage)])
  }

  function Ended(db: Db, t: TaskId): Db {
    db.(tasks := db.tasks - {t})
  }

  predicate KeyUsed(bills: seq<Bill>, user: UserId, key: Option<string>) {
    key.Some? && exists i :: 0 <= i < |bills| && bills[i].user == user && bills[i].key == key
  }

  /** Whether lines 321-339 of executePurchase let the purchase through. */
  predicate CanPurchase(db: Db, a: Action)
    requires a.Purchase?
  {
    && a.task !in db.tasks
    && a.amount > 0
    && !KeyUsed(db.bills, a.user, a.key)
    && UsedToday(db.bills, a.wallet, a.today) + a.amount <= a.limit
    && a.wallet in db.available && db.available[a.wallet] >= a.amount
  }

  /** Debit, bill row and audit entry; the provider call is next. */
  function StepPurchase(db: Db, a: Action): Db
    requires a.Purchase?
  {
    if !CanPurchase(db, a) then db
    else
      var id := |db.bills|;
      db.(available := db.available[a.wallet := db.available[a.wallet] - a.amount],
          bills := db.bills + [Bill(a.user, a.wallet, a.amount, a.reference, a.key, Processing, a.now)],
          entries := db.entries + [Entry(a.wallet, id, Debit, a.amount, a.reference)],
          tasks := db.tasks[a.task := Task(ByPurchase, id, a.wallet, a.amount, a.reference, Calling)],
          delays := db.delays + [[]])
  }

  /** The worker takes a job off the queue and reads the row. */
  function StepTakeJob(db: Db, t: TaskId, job: Job): Db {
    if job !in db.jobs || t in db.tasks then db
    else
      var taken := db.(jobs := db.jobs - {job});
      if job.bill >= |db.bills| || IsResolved(db.bills[job.bill].status) then taken
      else taken.(tasks := db.tasks[t :=
        Task(ByWorker(job.attempt), job.bill, job.wallet, job.amount, job.reference, Calling)])
  }

  /** The user's requery reads the row; a delivered or refunded bill needs no call. */
  function StepRequery(db: Db, t: TaskId, user: UserId, bill: BillId): Db {
    if bill >= |db.bills| || t in db.tasks || db.bills[bill].user != user then db
    else
      var row := db.bills[bill];
      if row.status == StatusDelivered || row.status == Refunded then db
      else db.(tasks := db.tasks[t := Task(ByUser, bill, row.wallet, row.amount, row.reference, Calling)])
  }

  function StepAnswer(db: Db, t: TaskId, o: Outcome): Db {
    if t !in db.tasks || db.tasks[t].stage != Calling then db
    else WithStage(db, t, Answered(o)).(answers := db.answers + [(db.tasks[t].bill, o)])
  }

  function BranchOf(task: Task): Branch
    requires task.stage.Answered?
  {
    match task.caller
    case ByPurchase => PurchaseBranch(task.stage.outcome)
    case ByWorker(n) => WorkerBranch(task.stage.outcome, n)
    case ByUser => RequeryBranch(task.stage.outcome)
  }

  /** What a dispatch site does with an answer: the status it writes, if any, and what comes next. */
  datatype Plan = Plan(status: Option<Status>, next: Option<Stage>)

  function PlanFor(task: Task): Plan
    requires task.stage.Answered?
  {
    match BranchOf(task)
    case Deliver => Plan(Some(StatusDelivered), None)
    case Refund => Plan(Some(StatusFailed), Some(Refunding))
    case Pend => Plan(Some(AwaitingProvider), Some(Enqueueing(1)))
    case Hold => Plan(Some(ProviderUncertain), Some(Enqueueing(1)))
    case Reschedule => Plan(None, Some(Enqueueing(if task.caller.ByWorker? then task.caller.attempt + 1 else 1)))
    case GiveUp => Plan(Some(ReconciliationRequired), None)
    case Leave => Plan(None, None)
    case Rethrow => Plan(None, None)
  }

  function Carry(db: Db, t: TaskId, plan: Plan): Db
    requires t in db.tasks && db.tasks[t].bill < |db.bills|
  {
    var bill := db.tasks[t].bill;
    var written := if plan.status.Some? then WithStatus(db, bill, plan.status.value) else db;
    var moved := if plan.next.Some? then WithStage(written, t, plan.next.value) else Ended(written, t);
    if plan.status == Some(StatusDelivered) then moved.(delivered := db.delivered + {bill}) else moved
  }

  /** The status update that follows an answer. */
  function StepFinalize(db: Db, t: TaskId): Db {
    if t !in db.tasks || !db.tasks[t].stage.Answered? || db.tasks[t].bill >= |db.bills| then db
    else Carry(db, t, PlanFor(db.tasks[t]))
  }

  /** The transaction of safeRefundWallet: credit, entry and status together. */
  function CreditRefund(db: Db, wallet: WalletId, amount: int, bill: BillId, reference: string): Db
    requires bill < |db.bills|
  {
    if wallet !in db.available then db
    else
      WithStatus(
        db.(available := db.available[wallet := db.available[wallet] + amount],
            entries := db.entries + [Entry(wallet, bill, Credit, amount, "REFUND-" + reference)]),
        bill, Refunded)
  }

  /** safeRefundWallet in one step: nothing when the refund entry is there. BillsRefund takes it in two. */
  function PayOut(db: Db, wallet: WalletId, amount: int, bill: BillId, reference: string): Db
    requires bill < |db.bills|
  {
    if HasRefund(db.entries, bill, reference) then db else CreditRefund(db, wallet, amount, bill, reference)
  }

  function StepSafeRefund(db: Db, t: TaskId): Db {
    if t !in db.tasks || db.tasks[t].stage != Refunding || db.tasks[t].bill >= |db.bills| then db
    else
      var task := db.tasks[t];
      Ended(PayOut(db, task.wallet, task.amount, task.bill, task.reference), t)
  }

  function StepEnqueue(db: Db, t: TaskId): Db {
    if t !in db.tasks || !db.tasks[t].stage.Enqueueing? || db.tasks[t].bill >= |db.delays| then db
    else
      var task := db.tasks[t];
      var n := task.stage.attempt;
      Ended(db, t).(
        jobs := db.jobs + {Job(task.bill, task.wallet, task.amount, task.reference, n)},
        delays := db.delays[task.bill := db.delays[task.bill] + [DelayMs(n)]])
  }

  function Step(db: Db, a: Action): Db {
    match a
    case Purchase(_, _, _, _, _, _, _, _, _) => StepPurchase(db, a)
    case TakeJob(t, job) => StepTakeJob(db, t, job)
    case Requery(t, user, bill) => StepRequery(db, t, user, bill)
    case Answer(t, o) => StepAnswer(db, t, o)
    case Finalize(t) => StepFinalize(db, t)
    case SafeRefund(t) => StepSafeRefund(db, t)
    case Enqueue(t) => StepEnqueue(db, t)
  }

  /** Any interleaving of purchases, reconcile attempts and requeries is some sequence of actions. */
  function Run(db: Db, actions: seq<Action>): Db {
    if actions == [] then db
    else Step(Run(db, actions[..|actions| - 1]), actions[|actions| - 1])
  }

  /** A database with money in the wallets and no bill yet. */
  function Opening(available: map<WalletId, int>): Db {
    Db(available, [], [], {}, map[], [], {}, [])
  }
}
