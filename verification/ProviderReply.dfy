/**
 The classification of VTPass replies (bills.utils) and the three places that
 dispatch on it: a purchase, a reconcile attempt and a user's requery.
 */
module ProviderReply {

  /** A JSON value as JavaScript sees it. Numbers and arrays carry the text that String() gives them. */
  datatype Json =
    | Undefined
    | Null
    | Bool(b: bool)
    | Num(text: string)
    | Str(s: string)
    | Arr(joined: string)
    | Obj(fields: map<string, Json>)

  /** `j?.key` */
  function Get(j: Json, key: string): Json {
    if j.Obj? && key in j.fields then j.fields[key] else Undefined
  }

  /** `String(j ?? '')` */
  function Text(j: Json): string {
    match j
    case Undefined => ""
    case Null => ""
    case Bool(b) => if b then "true" else "false"
    case Num(text) => text
    case Str(s) => s
    case Arr(joined) => joined
    case Obj(_) => "[object Object]"
  }

  function Code(r: Json): string {
    Text(Get(r, "code"))
  }

  function TransactionStatus(r: Json): string {
    Text(Get(Get(Get(r, "content"), "transactions"), "status"))
  }

  /** `typeof r !== 'object' || r === null` */
  predicate IsMalformed(r: Json) {
    !r.Arr? && !r.Obj?
  }

  predicate IsDelivered(r: Json) {
    Code(r) == "000" && TransactionStatus(r) in ["delivered", "successful", ""]
  }

  predicate IsPending(r: Json) {
    Code(r) == "099" || TransactionStatus(r) == "pending"
  }

  /** What came of one call to the provider. */
  datatype Outcome = Threw | Replied(r: Json)

  datatype Verdict = Delivered | Pending | Failed | Uncertain

  /** The meaning of an outcome, stated without any order between the tests. */
  predicate Means(o: Outcome, v: Verdict) {
    match v
    case Uncertain => o.Threw? || IsMalformed(o.r)
    case Delivered => o.Replied? && IsDelivered(o.r)
    case Pending => o.Replied? && IsPending(o.r)
    case Failed => o.Replied? && !IsMalformed(o.r) && !IsDelivered(o.r) && !IsPending(o.r)
  }

  /** Every outcome has exactly one of the four meanings. */
  lemma VerdictsPartitionOutcomes(o: Outcome, v: Verdict, w: Verdict)
    ensures Means(o, Uncertain) || Means(o, Delivered) || Means(o, Pending) || Means(o, Failed)
    ensures Means(o, v) && Means(o, w) ==> v == w
  {
    if o.Replied? && IsMalformed(o.r) {
      assert Code(o.r) == "";
    }
  }

  // ----- what a reply says, field by field

  /** A field that String() turns into this text, which is not empty. */
  predicate Shows(j: Json, text: string) {
    j == Str(text) || j == Num(text) || j == Arr(text)
  }

  predicate CodeReads(r: Json, text: string) {
    r.Obj? && "code" in r.fields && Shows(r.fields["code"], text)
  }

  /** The field content.transactions.status, where a reply has one. */
  predicate HasStatus(r: Json, status: Json) {
    && r.Obj? && "content" in r.fields
    && r.fields["content"].Obj? && "transactions" in r.fields["content"].fields
    && var transactions := r.fields["content"].fields["transactions"];
    && transactions.Obj? && "status" in transactions.fields
    && transactions.fields["status"] == status
  }

  ghost predicate StatusReads(r: Json, text: string) {
    exists status :: HasStatus(r, status) && Shows(status, text)
  }

  /** No status, or one that String() turns into nothing. */
  ghost predicate StatusIsBlank(r: Json) {
    forall status :: HasStatus(r, status) ==> status in {Undefined, Null, Str(""), Num(""), Arr("")}
  }

  /** The fields that make a reply a delivery. */
  ghost predicate SaysDelivered(r: Json) {
    CodeReads(r, "000") && (StatusReads(r, "delivered") || StatusReads(r, "successful") || StatusIsBlank(r))
  }

  ghost predicate SaysPending(r: Json) {
    CodeReads(r, "099") || StatusReads(r, "pending")
  }

  /** A reply in which neither is said is a refusal, as long as it is an object or an array. */
  ghost predicate SaysFailed(r: Json) {
    (r.Obj? || r.Arr?) && !SaysDelivered(r) && !SaysPending(r)
  }

  lemma CodeIsRead(r: Json, text: string)
    requires text in {"000", "099"}
    ensures Code(r) == text <==> CodeReads(r, text)
  {
  }

  lemma StatusIsRead(r: Json, text: string)
    requires text in {"delivered", "successful", "pending"}
    ensures TransactionStatus(r) == text <==> StatusReads(r, text)
  {
    var status := Get(Get(Get(r, "content"), "transactions"), "status");
    if HasStatus(r, status) {
      assert StatusReads(r, text) <==> Shows(status, text);
    }
  }

  lemma BlankIsRead(r: Json)
    ensures TransactionStatus(r) == "" <==> StatusIsBlank(r)
  {
    var status := Get(Get(Get(r, "content"), "transactions"), "status");
    if HasStatus(r, status) {
      assert StatusIsBlank(r) <==> status in {Undefined, Null, Str(""), Num(""), Arr("")};
    }
  }

  /** The meaning of every reply, from its fields. */
  lemma ReplyMeansWhatItSays(r: Json)
    ensures Means(Replied(r), Delivered) <==> SaysDelivered(r)
    ensures Means(Replied(r), Pending) <==> SaysPending(r)
    ensures Means(Replied(r), Failed) <==> SaysFailed(r)
    ensures Means(Replied(r), Uncertain) <==> !r.Obj? && !r.Arr?
  {
    CodeIsRead(r, "000");
    CodeIsRead(r, "099");
    StatusIsRead(r, "delivered");
    StatusIsRead(r, "successful");
    StatusIsRead(r, "pending");
    BlankIsRead(r);
  }

  /** What a dispatch site does next. */
  datatype Branch = Deliver | Pend | Refund | Hold | Reschedule | GiveUp | Leave | Rethrow

  const MAX_ATTEMPTS := 6

  /** executePurchase: the thrown or malformed case is tested first. */
  function PurchaseBranch(o: Outcome): Branch {
    if o.Threw? || IsMalformed(o.r) then Hold
    else if IsDelivered(o.r) then Deliver
    else if IsPending(o.r) then Pend
    else Refund
  }

  /** The worker turns a throw into null and tests for delivery before it tests the shape. */
  function WorkerBranch(o: Outcome, attempt: int): Branch {
    var result := if o.Threw? then Null else o.r;
    if IsDelivered(result) then Deliver
    else if !IsMalformed(result) && !IsPending(result) then Refund
    else if attempt >= MAX_ATTEMPTS then GiveUp
    else Reschedule
  }

  /** requeryBill lets a throw escape and tests the shape last. */
  function RequeryBranch(o: Outcome): Branch {
    if o.Threw? then Rethrow
    else
      var delivered := IsDelivered(o.r);
      var failed := !delivered && !IsPending(o.r) && !IsMalformed(o.r);
      if delivered then Deliver else if failed then Refund else Leave
  }

  /** The three sites, with their different test orders, agree with the meanings and so with each other. */
  lemma SitesAgree(o: Outcome, attempt: int)
    ensures PurchaseBranch(o) == Deliver <==> Means(o, Delivered)
    ensures WorkerBranch(o, attempt) == Deliver <==> Means(o, Delivered)
    ensures RequeryBranch(o) == Deliver <==> Means(o, Delivered)
    ensures PurchaseBranch(o) == Refund <==> Means(o, Failed)
    ensures WorkerBranch(o, attempt) == Refund <==> Means(o, Failed)
    ensures RequeryBranch(o) == Refund <==> Means(o, Failed)
    ensures PurchaseBranch(o) == Pend <==> Means(o, Pending)
    ensures PurchaseBranch(o) == Hold <==> Means(o, Uncertain)
    ensures WorkerBranch(o, attempt) in {GiveUp, Reschedule} <==> Means(o, Pending) || Means(o, Uncertain)
    ensures RequeryBranch(o) in {Leave, Rethrow} <==> Means(o, Pending) || Means(o, Uncertain)
  {
    VerdictsPartitionOutcomes(o, Delivered, Uncertain);
    VerdictsPartitionOutcomes(o, Delivered, Pending);
  }
}
