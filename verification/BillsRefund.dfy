/**
 safeRefundWallet in its two steps. The lookup for an existing refund runs before the transaction that
 pays, so two callers can both look before either has paid. What the protocol promises with the refund in
 one step holds exactly as long as no payment comes late.
 */
module BillsRefund {
  import opened BillsModel
  import opened BillsMoney
  import opened BillsProtocol
  import Common
  import ProviderReply

  /** `paying` holds the tasks whose lookup found nothing and whose transaction is still to come. */
  datatype Fine = Fine(db: Db, paying: set<TaskId>)

  datatype FineAction = Whole(a: Action) | Lookup(t: TaskId) | Pay(t: TaskId)

  predicate AboutToRefund(db: Db, t: TaskId) {
    t in db.tasks && db.tasks[t].stage == Refunding && db.tasks[t].bill < |db.bills|
  }

  predicate FindsRefund(db: Db, t: TaskId)
    requires t in db.tasks
  {
    HasRefund(db.entries, db.tasks[t].bill, db.tasks[t].reference)
  }

  function StepLookup(f: Fine, t: TaskId): Fine {
    if !AboutToRefund(f.db, t) || t in f.paying then f
    else if FindsRefund(f.db, t) then Fine(Ended(f.db, t), f.paying)
    else Fine(f.db, f.paying + {t})
  }

  predicate CanPay(f: Fine, t: TaskId) {
    t in f.paying && AboutToRefund(f.db, t)
  }

  function StepPay(f: Fine, t: TaskId): Fine {
    if !CanPay(f, t) then f
    else
      var task := f.db.tasks[t];
      Fine(Ended(CreditRefund(f.db, task.wallet, task.amount, task.bill, task.reference), t), f.paying - {t})
  }

  function StepFine(f: Fine, x: FineAction): Fine {
    match x
    case Whole(a) => if a.SafeRefund? then f else Fine(Step(f.db, a), f.paying)
    case Lookup(t) => StepLookup(f, t)
    case Pay(t) => StepPay(f, t)
  }

  function RunFine(open: Db, xs: seq<FineAction>): Fine {
    if xs == [] then Fine(open, {}) else StepFine(RunFine(open, xs[..|xs| - 1]), xs[|xs| - 1])
  }

  /** A payment for the bill that goes ahead although a second look would find the refund. */
  predicate IsLate(f: Fine, x: FineAction, bill: BillId) {
    x.Pay? && CanPay(f, x.t) && f.db.tasks[x.t].bill == bill && FindsRefund(f.db, x.t)
  }

  function LatePays(open: Db, xs: seq<FineAction>, bill: BillId): nat {
    if xs == [] then 0
    else
      LatePays(open, xs[..|xs| - 1], bill)
      + if IsLate(RunFine(open, xs[..|xs| - 1]), xs[|xs| - 1], bill) then 1 else 0
  }

  // ----- the records stay matched, whoever pays

  lemma LookupKeepsRecords(f: Fine, t: TaskId)
    requires Records(f.db)
    ensures Records(StepLookup(f, t).db)
  {
    RecordsCarryOver(f.db, StepLookup(f, t).db);
  }

  lemma PayKeepsRecords(f: Fine, t: TaskId)
    requires Records(f.db)
    ensures Records(StepPay(f, t).db)
  {
    RecordsCarryOver(f.db, StepPay(f, t).db);
  }

  lemma {:induction false} FineKeepsRecords(open: Db, xs: seq<FineAction>)
    requires Records(open)
    ensures Records(RunFine(open, xs).db)
  {
    if xs != [] {
      var before, x := RunFine(open, xs[..|xs| - 1]), xs[|xs| - 1];
      FineKeepsRecords(open, xs[..|xs| - 1]);
      match x
      case Whole(a) => StepKeepsRecords(before.db, a);
      case Lookup(t) => LookupKeepsRecords(before, t);
      case Pay(t) => PayKeepsRecords(before, t);
    }
  }

  // ----- how many refunds a bill gets

  /** One refund, and one more for every late payment. */
  predicate RefundsAre(credits: nat, late: nat) {
    if credits == 0 then late == 0 else credits == 1 + late
  }

  lemma WholeAddsNoCredit(db: Db, a: Action, bill: BillId)
    requires !a.SafeRefund?
    ensures Count(Step(db, a).entries, bill, Credit) == Count(db.entries, bill, Credit)
  {
    if a.Purchase? && CanPurchase(db, a) {
      CountAppend(db.entries, Entry(a.wallet, |db.bills|, Debit, a.amount, a.reference), bill, Credit);
    }
  }

  lemma PayAddsCredit(f: Fine, t: TaskId, bill: BillId)
    requires Records(f.db) && CanPay(f, t)
    ensures Count(StepPay(f, t).db.entries, bill, Credit)
            == Count(f.db.entries, bill, Credit) + if f.db.tasks[t].bill == bill then 1 else 0
    ensures FindsRefund(f.db, t) <==> Count(f.db.entries, f.db.tasks[t].bill, Credit) > 0
  {
    var k := f.db.tasks[t];
    assert DescribesBill(f.db.bills, k.bill, k.wallet, k.amount, k.reference);
    CountAppend(f.db.entries, Entry(k.wallet, k.bill, Credit, k.amount, "REFUND-" + k.reference), bill, Credit);
    LookupFindsRefund(f.db, k.bill);
  }

  lemma {:induction false} RefundsCounted(open: Db, xs: seq<FineAction>, bill: BillId)
    requires Records(open) && Count(open.entries, bill, Credit) == 0
    ensures RefundsAre(Count(RunFine(open, xs).db.entries, bill, Credit), LatePays(open, xs, bill))
  {
    if xs != [] {
      var before, x := RunFine(open, xs[..|xs| - 1]), xs[|xs| - 1];
      RefundsCounted(open, xs[..|xs| - 1], bill);
      FineKeepsRecords(open, xs[..|xs| - 1]);
      match x
      case Whole(a) =>
        if !a.SafeRefund? { WholeAddsNoCredit(before.db, a, bill); }
      case Lookup(_) =>
      case Pay(t) =>
        if CanPay(before, t) { PayAddsCredit(before, t, bill); }
    }
  }

  // ----- late means that another payment came in between

  predicate PaysFor(f: Fine, x: FineAction, bill: BillId) {
    x.Pay? && CanPay(f, x.t) && f.db.tasks[x.t].bill == bill
  }

  /** Since the lookup of a task that is about to pay, another task has paid for the bill. */
  predicate PaidInWindow(open: Db, xs: seq<FineAction>, t: TaskId, bill: BillId) {
    xs != []
    && var before, x := RunFine(open, xs[..|xs| - 1]), xs[|xs| - 1];
       && t in before.paying
       && ((PaysFor(before, x, bill) && x.t != t) || PaidInWindow(open, xs[..|xs| - 1], t, bill))
  }

  /** The payments for a bill in whose lookup-to-payment window another payment for it fell. */
  function OverlappingPays(open: Db, xs: seq<FineAction>, bill: BillId): nat {
    if xs == [] then 0
    else
      var ys, x := xs[..|xs| - 1], xs[|xs| - 1];
      OverlappingPays(open, ys, bill)
      + if PaysFor(RunFine(open, ys), x, bill) && PaidInWindow(open, ys, x.t, bill) then 1 else 0
  }

  /** A task about to refund is left alone until it looks or pays. */
  lemma RefunderStays(db: Db, a: Action, t: TaskId)
    requires AboutToRefund(db, t) && !a.SafeRefund?
    ensures AboutToRefund(Step(db, a), t) && Step(db, a).tasks[t] == db.tasks[t]
  {
    StepKeepsRows(db, a);
  }

  ghost predicate PayersWait(f: Fine) {
    forall t :: t in f.paying ==> AboutToRefund(f.db, t)
  }

  lemma {:induction false} PayersAlwaysWait(open: Db, xs: seq<FineAction>)
    ensures PayersWait(RunFine(open, xs))
  {
    if xs != [] {
      var before, x := RunFine(open, xs[..|xs| - 1]), xs[|xs| - 1];
      PayersAlwaysWait(open, xs[..|xs| - 1]);
      if x.Whole? && !x.a.SafeRefund? {
        forall t | t in before.paying ensures AboutToRefund(Step(before.db, x.a), t) {
          RefunderStays(before.db, x.a, t);
        }
      }
    }
  }

  /** Only a purchase or a payment adds an entry, and only the payment's is a refund. */
  lemma NewEntryIsPayment(before: Fine, x: FineAction, bill: BillId, reference: string)
    requires HasRefund(StepFine(before, x).db.entries, bill, reference) && !HasRefund(before.db.entries, bill, reference)
    ensures PaysFor(before, x, bill)
  {
    var entries := StepFine(before, x).db.entries;
    var i :| 0 <= i < |entries| && IsRefundOf(entries[i], bill, reference);
    assert i < |before.db.entries| ==> entries[i] == before.db.entries[i];
  }

  lemma OverlapStep(before: Fine, x: FineAction, t: TaskId)
    requires PayersWait(before)
    requires CanPay(StepFine(before, x), t) && FindsRefund(StepFine(before, x).db, t)
    ensures CanPay(before, t) && before.db.tasks[t] == StepFine(before, x).db.tasks[t]
    ensures x.Pay? ==> x.t != t
    ensures FindsRefund(before.db, t) || PaysFor(before, x, before.db.tasks[t].bill)
  {
    if x.Whole? && !x.a.SafeRefund? {
      RefunderStays(before.db, x.a, t);
    }
    var task := StepFine(before, x).db.tasks[t];
    if !HasRefund(before.db.entries, task.bill, task.reference) {
      NewEntryIsPayment(before, x, task.bill, task.reference);
    }
  }

  lemma {:induction false} LateMeansOverlap(open: Db, xs: seq<FineAction>, t: TaskId)
    requires CanPay(RunFine(open, xs), t) && FindsRefund(RunFine(open, xs).db, t)
    ensures PaidInWindow(open, xs, t, RunFine(open, xs).db.tasks[t].bill)
  {
    if xs != [] {
      var ys, x := xs[..|xs| - 1], xs[|xs| - 1];
      PayersAlwaysWait(open, ys);
      OverlapStep(RunFine(open, ys), x, t);
      if FindsRefund(RunFine(open, ys).db, t) {
        LateMeansOverlap(open, ys, t);
      }
    }
  }

  lemma CreditsStay(f: Fine, x: FineAction, bill: BillId)
    requires Records(f.db)
    ensures Count(StepFine(f, x).db.entries, bill, Credit) >= Count(f.db.entries, bill, Credit)
    ensures PaysFor(f, x, bill) ==> Count(StepFine(f, x).db.entries, bill, Credit) > 0
  {
    match x
    case Whole(a) =>
      if !a.SafeRefund? { WholeAddsNoCredit(f.db, a, bill); }
    case Lookup(_) =>
    case Pay(t) =>
      if CanPay(f, t) { PayAddsCredit(f, t, bill); }
  }

  lemma {:induction false} OverlapLeavesCredit(open: Db, xs: seq<FineAction>, t: TaskId, bill: BillId)
    requires Records(open) && PaidInWindow(open, xs, t, bill)
    ensures Count(RunFine(open, xs).db.entries, bill, Credit) > 0
  {
    var ys, x := xs[..|xs| - 1], xs[|xs| - 1];
    FineKeepsRecords(open, ys);
    CreditsStay(RunFine(open, ys), x, bill);
    if !PaysFor(RunFine(open, ys), x, bill) {
      OverlapLeavesCredit(open, ys, t, bill);
    }
  }

  /** A payment would find the refund if and only if another payment for the bill came since its own lookup. */
  lemma {:induction false} LateIffOverlap(open: Db, xs: seq<FineAction>, t: TaskId)
    requires Records(open) && CanPay(RunFine(open, xs), t)
    ensures FindsRefund(RunFine(open, xs).db, t) <==> PaidInWindow(open, xs, t, RunFine(open, xs).db.tasks[t].bill)
  {
    var f := RunFine(open, xs);
    if FindsRefund(f.db, t) {
      LateMeansOverlap(open, xs, t);
    } else if PaidInWindow(open, xs, t, f.db.tasks[t].bill) {
      OverlapLeavesCredit(open, xs, t, f.db.tasks[t].bill);
      FineKeepsRecords(open, xs);
      PayAddsCredit(f, t, f.db.tasks[t].bill);
    }
  }

  lemma {:induction false} LatePaysOverlap(open: Db, xs: seq<FineAction>, bill: BillId)
    requires Records(open)
    ensures LatePays(open, xs, bill) == OverlappingPays(open, xs, bill)
  {
    if xs != [] {
      var ys, x := xs[..|xs| - 1], xs[|xs| - 1];
      LatePaysOverlap(open, ys, bill);
      if x.Pay? && CanPay(RunFine(open, ys), x.t) {
        LateIffOverlap(open, ys, x.t);
      }
    }
  }

  /**
   In any interleaving of purchases, reconcile attempts and requeries, lookups and payments taken
   separately: a bill is refunded at most once if and only if no payment for it is made by a task in whose
   lookup-to-payment window another payment for it fell; each such payment is one refund more.
   */
  lemma {:induction false} RefundedOnceIff(available: map<WalletId, int>, xs: seq<FineAction>, bill: BillId)
    requires forall w :: w in available ==> available[w] >= 0
    ensures var credits := Count(RunFine(Opening(available), xs).db.entries, bill, Credit);
            var overlapping := OverlappingPays(Opening(available), xs, bill);
            (credits <= 1 <==> overlapping == 0) && RefundsAre(credits, overlapping)
  {
    OpeningIsGood(available);
    RefundsCounted(Opening(available), xs, bill);
    LatePaysOverlap(Opening(available), xs, bill);
  }

  // ----- what the protocol keeps all the same

  /** The parts of the protocol's invariant that a second refund leaves alone. */
  ghost predicate ProtocolKept(db: Db) {
    Records(db) && OneDriver(db) && Numbered(db) && Truthful(db)
  }

  lemma EndKeepsTruthful(db: Db, t: TaskId)
    requires Truthful(db)
    ensures Truthful(Ended(db, t))
  {
    forall b: BillId, v: ProviderReply.Verdict | Heard(db, b, v) ensures Heard(Ended(db, t), b, v) {
      HeardLater(db, Ended(db, t), b, v);
    }
  }

  lemma EndKeepsProtocol(db: Db, t: TaskId)
    requires ProtocolKept(db)
    ensures ProtocolKept(Ended(db, t))
  {
    RecordsCarryOver(db, Ended(db, t));
    NumberingCarriesOver(db, Ended(db, t));
    EndKeepsTruthful(db, t);
  }

  lemma CreditKeepsTruthful(db: Db, t: TaskId)
    requires Truthful(db) && AboutToRefund(db, t)
    ensures var k := db.tasks[t];
            Truthful(CreditRefund(db, k.wallet, k.amount, k.bill, k.reference))
  {
    var k := db.tasks[t];
    var db' := CreditRefund(db, k.wallet, k.amount, k.bill, k.reference);
    forall b: BillId, v: ProviderReply.Verdict | Heard(db, b, v) ensures Heard(db', b, v) {
      HeardLater(db, db', b, v);
    }
    forall b: BillId | Count(db'.entries, b, Credit) > 0 ensures Heard(db', b, ProviderReply.Failed) {
      CountAppend(db.entries, Entry(k.wallet, k.bill, Credit, k.amount, "REFUND-" + k.reference), b, Credit);
    }
  }

  lemma CreditKeepsRecords(db: Db, t: TaskId)
    requires Records(db) && AboutToRefund(db, t)
    ensures var k := db.tasks[t];
            Records(CreditRefund(db, k.wallet, k.amount, k.bill, k.reference))
  {
    var k := db.tasks[t];
    RecordsCarryOver(db, CreditRefund(db, k.wallet, k.amount, k.bill, k.reference));
  }

  lemma CreditKeepsNumbered(db: Db, t: TaskId)
    requires Numbered(db) && AboutToRefund(db, t)
    ensures var k := db.tasks[t];
            Numbered(CreditRefund(db, k.wallet, k.amount, k.bill, k.reference))
  {
    var k := db.tasks[t];
    NumberingCarriesOver(db, CreditRefund(db, k.wallet, k.amount, k.bill, k.reference));
  }

  lemma CreditKeepsProtocol(db: Db, t: TaskId)
    requires ProtocolKept(db) && AboutToRefund(db, t)
    ensures var k := db.tasks[t];
            ProtocolKept(CreditRefund(db, k.wallet, k.amount, k.bill, k.reference))
  {
    CreditKeepsRecords(db, t);
    CreditKeepsNumbered(db, t);
    CreditKeepsTruthful(db, t);
  }

  lemma FineStepKeepsProtocol(f: Fine, x: FineAction)
    requires ProtocolKept(f.db)
    ensures ProtocolKept(StepFine(f, x).db)
  {
    match x
    case Whole(a) =>
      StepKeepsRecords(f.db, a);
      StepKeepsOneDriver(f.db, a);
      StepKeepsNumbered(f.db, a);
      StepKeepsTruthful(f.db, a);
    case Lookup(t) => EndKeepsProtocol(f.db, t);
    case Pay(t) =>
      if CanPay(f, t) {
        var k := f.db.tasks[t];
        CreditKeepsProtocol(f.db, t);
        EndKeepsProtocol(CreditRefund(f.db, k.wallet, k.amount, k.bill, k.reference), t);
      }
  }

  lemma {:induction false} RaceKeepsProtocol(available: map<WalletId, int>, xs: seq<FineAction>)
    requires forall w :: w in available ==> available[w] >= 0
    ensures ProtocolKept(RunFine(Opening(available), xs).db)
  {
    if xs == [] {
      RunKeepsProtocolInv(available, []);
    } else {
      RaceKeepsProtocol(available, xs[..|xs| - 1]);
      FineStepKeepsProtocol(RunFine(Opening(available), xs[..|xs| - 1]), xs[|xs| - 1]);
    }
  }

  /** With the race too, a bill has one queued job at most, numbered 1 to 6, and nothing else drives it meanwhile. */
  lemma {:induction false} QueueStaysSingle(available: map<WalletId, int>, xs: seq<FineAction>, j: Job)
    requires forall w :: w in available ==> available[w] >= 0
    requires j in RunFine(Opening(available), xs).db.jobs
    ensures var db := RunFine(Opening(available), xs).db;
            && 1 <= j.attempt <= ProviderReply.MAX_ATTEMPTS
            && (forall k :: k in db.jobs && k.bill == j.bill ==> k == j)
            && (forall t :: t in db.tasks && Automatic(db.tasks[t]) ==> db.tasks[t].bill != j.bill)
  {
    RaceKeepsProtocol(available, xs);
  }

  /** The chain of attempts ends as before. */
  lemma {:induction false} ChainStaysBounded(available: map<WalletId, int>, xs: seq<FineAction>, bill: BillId)
    requires forall w :: w in available ==> available[w] >= 0
    requires bill < |RunFine(Opening(available), xs).db.bills|
    ensures bill < |RunFine(Opening(available), xs).db.delays|
    ensures var delays := RunFine(Opening(available), xs).db.delays[bill];
            && |delays| <= ProviderReply.MAX_ATTEMPTS
            && delays == RECONCILE_DELAYS_MS[..|delays|] && Common.Sum(delays) <= 28260000
  {
    RaceKeepsProtocol(available, xs);
    PrefixSums(|RunFine(Opening(available), xs).db.delays[bill]|);
  }

  /** Every refund, the second one included, had a well-formed refusal of its bill before it. */
  lemma {:induction false} EveryRefundHadARefusal(available: map<WalletId, int>, xs: seq<FineAction>, bill: BillId)
    requires forall w :: w in available ==> available[w] >= 0
    requires Count(RunFine(Opening(available), xs).db.entries, bill, Credit) > 0
    ensures Heard(RunFine(Opening(available), xs).db, bill, ProviderReply.Failed)
  {
    RaceKeepsProtocol(available, xs);
  }

  /** And with a consistent provider no bill is both delivered and refunded. */
  lemma {:induction false} NeverBothInRace(available: map<WalletId, int>, xs: seq<FineAction>, bill: BillId)
    requires forall w :: w in available ==> available[w] >= 0
    requires ProviderConsistent(RunFine(Opening(available), xs).db)
    ensures var db := RunFine(Opening(available), xs).db;
            !(bill in db.delivered && Count(db.entries, bill, Credit) > 0)
  {
    RaceKeepsProtocol(available, xs);
  }

  // ----- money

  /** What late payments have put into a wallet. */
  function LateMoney(open: Db, xs: seq<FineAction>, w: WalletId): int {
    if xs == [] then 0
    else
      var before, x := RunFine(open, xs[..|xs| - 1]), xs[|xs| - 1];
      LateMoney(open, xs[..|xs| - 1], w)
      + if x.Pay? && CanPay(before, x.t) && FindsRefund(before.db, x.t) && before.db.tasks[x.t].wallet == w
        then before.db.tasks[x.t].amount else 0
  }

  lemma {:induction false} OutstandingKept(bills: seq<Bill>, entries: seq<Entry>, e: Entry, w: WalletId)
    requires Count(entries, e.bill, Credit) > 0
    ensures Outstanding(bills, entries + [e], w) == Outstanding(bills, entries, w)
  {
    if bills != [] {
      OutstandingKept(bills[..|bills| - 1], entries, e, w);
      CountAppend(entries, e, |bills| - 1, Credit);
    }
  }

  lemma PayMovesWorth(f: Fine, t: TaskId, w: WalletId)
    requires Records(f.db) && CanPay(f, t) && w in f.db.available
    ensures w in StepPay(f, t).db.available
    ensures Worth(StepPay(f, t).db, w)
            == Worth(f.db, w)
               + if FindsRefund(f.db, t) && f.db.tasks[t].wallet == w then f.db.tasks[t].amount else 0
  {
    var k, db' := f.db.tasks[t], StepPay(f, t).db;
    var e := Entry(k.wallet, k.bill, Credit, k.amount, "REFUND-" + k.reference);
    assert DescribesBill(f.db.bills, k.bill, k.wallet, k.amount, k.reference);
    PayAddsCredit(f, t, k.bill);
    if FindsRefund(f.db, t) {
      OutstandingKept(f.db.bills, f.db.entries, e, w);
    } else {
      OutstandingRefund(f.db.bills, f.db.entries, e, w);
    }
    OutstandingSame(f.db.bills, db'.bills, f.db.entries + [e], db'.entries, w);
  }

  lemma NewBillKeepsWorth(db: Db, a: Action, w: WalletId)
    requires a.Purchase? && CanPurchase(db, a) && NoCreditAhead(db) && w in db.available
    ensures Worth(StepPurchase(db, a), w) == Worth(db, w)
  {
    var db' := StepPurchase(db, a);
    forall b: BillId ensures Count(db'.entries, b, Credit) == Count(db.entries, b, Credit) {
      WholeAddsNoCredit(db, a, b);
    }
    assert db'.bills[..|db.bills|] == db.bills;
    OutstandingSame(db.bills, db.bills, db.entries, db'.entries, w);
  }

  lemma WholeKeepsWorth(db: Db, a: Action, w: WalletId)
    requires !a.SafeRefund? && NoCreditAhead(db) && w in db.available
    ensures w in Step(db, a).available && Worth(Step(db, a), w) == Worth(db, w)
  {
    StepKeepsRows(db, a);
    if a.Purchase? && CanPurchase(db, a) {
      NewBillKeepsWorth(db, a, w);
    } else {
      assert Step(db, a).entries == db.entries && Step(db, a).available == db.available;
      OutstandingSame(db.bills, Step(db, a).bills, db.entries, db.entries, w);
    }
  }

  /** No credit names a bill that is not there yet. */
  ghost predicate NoCreditAhead(db: Db) {
    Count(db.entries, |db.bills|, Credit) == 0
  }

  lemma RecordsLeaveNoneAhead(db: Db)
    requires Records(db)
    ensures NoCreditAhead(db)
  {
    CountZero(db.entries, |db.bills|, Credit);
  }

  /**
   Conservation with the race: what a wallet has available plus its unrefunded bills grows by exactly the
   late payments, so it is conserved if and only if they amount to nothing.
   */
  lemma {:induction false} RaceCostsLateMoney(open: Db, xs: seq<FineAction>, w: WalletId)
    requires Records(open) && w in open.available
    ensures w in RunFine(open, xs).db.available
    ensures Worth(RunFine(open, xs).db, w) == Worth(open, w) + LateMoney(open, xs, w)
  {
    if xs != [] {
      var before, x := RunFine(open, xs[..|xs| - 1]), xs[|xs| - 1];
      RaceCostsLateMoney(open, xs[..|xs| - 1], w);
      FineKeepsRecords(open, xs[..|xs| - 1]);
      match x
      case Whole(a) =>
        RecordsLeaveNoneAhead(before.db);
        if !a.SafeRefund? { WholeKeepsWorth(before.db, a, w); }
      case Lookup(_) =>
      case Pay(t) =>
        if CanPay(before, t) { PayMovesWorth(before, t, w); }
    }
  }

  // ----- without late payments the two steps are one

  /** The run with each refund in one step, where it takes effect. */
  function Joined(open: Db, xs: seq<FineAction>): seq<Action> {
    if xs == [] then []
    else
      var before, x := RunFine(open, xs[..|xs| - 1]), xs[|xs| - 1];
      var earlier := Joined(open, xs[..|xs| - 1]);
      match x
      case Whole(a) => if a.SafeRefund? then earlier else earlier + [a]
      case Lookup(t) =>
        if AboutToRefund(before.db, t) && t !in before.paying && FindsRefund(before.db, t) then earlier + [SafeRefund(t)]
        else earlier
      case Pay(t) => if CanPay(before, t) then earlier + [SafeRefund(t)] else earlier
  }

  ghost predicate NeverLate(open: Db, xs: seq<FineAction>) {
    forall bill: BillId :: LatePays(open, xs, bill) == 0
  }

  lemma NeverLatePrefix(open: Db, xs: seq<FineAction>)
    requires xs != [] && NeverLate(open, xs)
    ensures NeverLate(open, xs[..|xs| - 1])
    ensures var before, x := RunFine(open, xs[..|xs| - 1]), xs[|xs| - 1];
            x.Pay? && CanPay(before, x.t) ==> !FindsRefund(before.db, x.t)
  {
    var ys := xs[..|xs| - 1];
    var before, x := RunFine(open, ys), xs[|xs| - 1];
    forall bill: BillId ensures LatePays(open, ys, bill) == 0 {
      assert LatePays(open, xs, bill) == 0;
    }
    if x.Pay? && CanPay(before, x.t) {
      assert LatePays(open, xs, before.db.tasks[x.t].bill) == 0;
    }
  }

  lemma RunAppend(open: Db, actions: seq<Action>, a: Action)
    ensures Run(open, actions + [a]) == Step(Run(open, actions), a)
  {
    assert (actions + [a])[..|actions|] == actions;
  }

  /**
   A run in which no payment comes late ends in the very state of the run with each refund in one step, so
   everything proved of the protocol holds of it.
   */
  lemma {:induction false} WithoutLatePaysStepsJoin(open: Db, xs: seq<FineAction>)
    requires NeverLate(open, xs)
    ensures RunFine(open, xs).db == Run(open, Joined(open, xs))
  {
    if xs != [] {
      var ys, x := xs[..|xs| - 1], xs[|xs| - 1];
      NeverLatePrefix(open, xs);
      WithoutLatePaysStepsJoin(open, ys);
      RunAppend(open, Joined(open, ys), if x.Whole? then x.a else SafeRefund(x.t));
    }
  }

  // ----- two refunds of one debit

  /** A purchase and a requery have both heard a refusal. */
  const BOTH_REFUSED: Db := BOTH_ANSWERED.(bills := [FAILED_BILL],
    tasks := map[0 := OverlapTask(ByPurchase, Refunding), 1 := OverlapTask(ByUser, Refunding)])

  lemma BothRefuse()
    ensures Step(Step(BOTH_ANSWERED, Finalize(0)), Finalize(1)) == BOTH_REFUSED
  {
    RefusalPlans(BOTH_ANSWERED.tasks[0]);
    RefusalPlans(BOTH_ANSWERED.tasks[1]);
  }

  const REFUND: Entry := Entry(0, 0, Credit, 40, "REFUND-" + "B")

  lemma BothLook()
    ensures StepFine(StepFine(Fine(BOTH_REFUSED, {}), Lookup(0)), Lookup(1)) == Fine(BOTH_REFUSED, {0, 1})
  {
    assert BOTH_REFUSED.entries == [OVERLAP_DEBIT];
    assert !HasRefund([OVERLAP_DEBIT], 0, "B");
    assert {0} + {1} == {0, 1};
  }

  lemma BothPay()
    ensures var paid := StepFine(StepFine(Fine(BOTH_REFUSED, {0, 1}), Pay(0)), Pay(1));
            && paid.db.entries == [OVERLAP_DEBIT, REFUND, REFUND]
            && paid.db.available == map[0 := 140]
  {
  }

  lemma RaceRuns(open: Db, xs: seq<FineAction>, x: FineAction)
    ensures RunFine(open, xs + [x]) == StepFine(RunFine(open, xs), x)
  {
    assert (xs + [x])[..|xs|] == xs;
  }

  /** Until the lookups the race is an ordinary run. */
  function Wholes(actions: seq<Action>): (xs: seq<FineAction>)
    ensures |xs| == |actions|
  {
    seq(|actions|, i requires 0 <= i < |actions| => Whole(actions[i]))
  }

  lemma {:induction false} WholesRun(open: Db, actions: seq<Action>)
    requires forall i :: 0 <= i < |actions| ==> !actions[i].SafeRefund?
    ensures RunFine(open, Wholes(actions)) == Fine(Run(open, actions), {})
  {
    if actions != [] {
      var before, a := actions[..|actions| - 1], actions[|actions| - 1];
      WholesRun(open, before);
      assert Wholes(actions)[..|actions| - 1] == Wholes(before) && Wholes(actions)[|actions| - 1] == Whole(a);
    }
  }

  const REFUSALS: seq<Action> := OVERLAP[..4] + [Finalize(0), Finalize(1)]

  lemma RefusalsReachRace()
    ensures RunFine(Opening(map[0 := 100]), Wholes(REFUSALS)) == Fine(BOTH_REFUSED, {})
  {
    var open := Opening(map[0 := 100]);
    OverlapReachesAnswers();
    RunAppend(open, OVERLAP[..4], Finalize(0));
    RunAppend(open, OVERLAP[..4] + [Finalize(0)], Finalize(1));
    assert OVERLAP[..4] + [Finalize(0)] + [Finalize(1)] == REFUSALS;
    BothRefuse();
    WholesRun(open, REFUSALS);
  }

  /** The wallet had 100, bought for 40, and ends with 140: one debit, two refunds. */
  lemma RaceRefundsTwice()
    ensures var f := RunFine(Opening(map[0 := 100]), Wholes(REFUSALS) + [Lookup(0)] + [Lookup(1)] + [Pay(0)] + [Pay(1)]);
            f.db.entries == [OVERLAP_DEBIT, REFUND, REFUND] && f.db.available == map[0 := 140]
  {
    var open, xs := Opening(map[0 := 100]), Wholes(REFUSALS);
    RefusalsReachRace();
    RaceRuns(open, xs, Lookup(0));
    RaceRuns(open, xs + [Lookup(0)], Lookup(1));
    BothLook();
    RaceRuns(open, xs + [Lookup(0)] + [Lookup(1)], Pay(0));
    RaceRuns(open, xs + [Lookup(0)] + [Lookup(1)] + [Pay(0)], Pay(1));
    BothPay();
  }
}
