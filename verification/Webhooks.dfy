/** Deposit webhooks: deliveries recorded by provider and id, deposit rows, and the funding credits they cause. */
module Webhooks {
  import opened Common

  datatype Provider = Providus | Paystack
  datatype Mark = Processing | Done | Failed
  datatype Status = Pending | Completed
  datatype Deposit = Deposit(wallet: int, reference: string, amount: int, status: Status)

  /** A funding transaction together with its credit entry; the two are inserted in one transaction. */
  datatype Funding = Funding(wallet: int, reference: string, amount: int)

  datatype State = State(deposits: seq<Deposit>, fundings: seq<Funding>, webhooks: map<(Provider, string), Mark>)

  const EMPTY: State := State([], [], map[])

  /** The database call that throws, if any: the deposit insert or lookup, the credit transaction, or the last status update. */
  datatype Fault = NoFault | DepositThrows | CreditThrows | MarkThrows

  /** What the payload's account number leads to. */
  datatype Account = NoNumber | NotFound | Inactive | Active(wallet: int)

  /** The payload's amount: missing (or zero), not convertible to whole kobo, or so many kobo after rounding. */
  datatype Amount = Missing | NotWhole | Kobo(kobo: int)

  /**
   `id` is the payload's id, absent when the payload has none, and `now` is Date.now(), which takes its
   place. `row` is the row the database returns when several deposits share the reference: the source asks
   for any of them.
   */
  datatype Event =
    | InitiateCard(wallet: int, asked: int, suffix: string)
    | ProvidusCredit(id: Option<string>, account: Account, amount: Amount, fault: Fault, now: nat)
    | PaystackCharge(
        id: Option<string>, reference: Option<string>, amount: Amount, row: nat, fault: Fault, now: nat)
    | PaystackOther(id: Option<string>, fault: Fault, now: nat)

  function CardReference(suffix: string): string {
    "DEP-" + suffix
  }

  function ProvidusReference(id: string): string {
    "PRV-" + id
  }

  /** A number in decimal digits. */
  function Decimal(n: nat): (text: string)
    ensures text != ""
  {
    var digit := ['0' + (n % 10) as char];
    if n < 10 then digit else Decimal(n / 10) + digit
  }

  /** The webhook id of a delivery; the clock stands in for a missing one. */
  function DeliveryId(e: Event): string
    requires !e.InitiateCard?
  {
    if e.id.Some? then e.id.value else (if e.ProvidusCredit? then "PRV-" else "PSK-") + Decimal(e.now)
  }

  function Key(e: Event): (Provider, string)
    requires !e.InitiateCard?
  {
    (if e.ProvidusCredit? then Providus else Paystack, DeliveryId(e))
  }

  predicate HasReference(fundings: seq<Funding>, reference: string) {
    exists i :: 0 <= i < |fundings| && fundings[i].reference == reference
  }

  predicate HasEntry(fundings: seq<Funding>, wallet: int, reference: string) {
    exists i :: 0 <= i < |fundings| && fundings[i].reference == reference && fundings[i].wallet == wallet
  }

  /**
   creditWallet for deposit `row`. It returns early when the wallet already has an entry under the
   reference; otherwise references are unique and amounts positive, or the transaction throws and
   leaves nothing behind. The flag says whether it returned normally.
   */
  function Credit(s: State, row: nat, throws: bool): (State, bool)
    requires row < |s.deposits|
  {
    var d := s.deposits[row];
    if HasEntry(s.fundings, d.wallet, d.reference) then (s, true)
    else if throws || d.amount <= 0 || HasReference(s.fundings, d.reference) then (s, false)
    else
      (s.(fundings := s.fundings + [Funding(d.wallet, d.reference, d.amount)],
          deposits := s.deposits[row := d.(status := Completed)]), true)
  }

  /** The first deposit with this reference, or the length when there is none. */
  function FirstRow(deposits: seq<Deposit>, reference: string): (row: nat)
    ensures row <= |deposits|
    ensures row < |deposits| ==> deposits[row].reference == reference
    ensures forall i :: 0 <= i < row ==> deposits[i].reference != reference
  {
    if deposits == [] then 0
    else
      var row := FirstRow(deposits[..|deposits| - 1], reference);
      if row == |deposits| - 1 && deposits[row].reference != reference then row + 1 else row
  }

  function FindRow(deposits: seq<Deposit>, reference: string, preferred: nat): nat {
    if preferred < |deposits| && deposits[preferred].reference == reference then preferred
    else FirstRow(deposits, reference)
  }

  function ProcessProvidus(s: State, e: Event): (State, Mark)
    requires e.ProvidusCredit?
  {
    if e.account.NoNumber? || e.amount.Missing? || e.amount.NotWhole? || !e.account.Active? || e.fault == DepositThrows
    then (s, Failed)
    else
      var d := Deposit(e.account.wallet, ProvidusReference(DeliveryId(e)), e.amount.kobo, Completed);
      var (credited, ok) := Credit(s.(deposits := s.deposits + [d]), |s.deposits|, e.fault == CreditThrows);
      (credited, if ok && e.fault != MarkThrows then Done else Failed)
  }

  function ProcessCharge(s: State, e: Event): (State, Mark)
    requires e.PaystackCharge?
  {
    var quiet := if e.fault == MarkThrows then Failed else Done;
    if e.reference.None? || e.reference.value == "" || e.amount.Missing? then (s, quiet)
    else if e.fault == DepositThrows then (s, Failed)
    else
      var row := FindRow(s.deposits, e.reference.value, e.row);
      if row >= |s.deposits| || s.deposits[row].status == Completed then (s, quiet)
      else
        var (credited, ok) := Credit(s, row, e.fault == CreditThrows);
        (credited, if ok then quiet else Failed)
  }

  function Process(s: State, e: Event): (State, Mark)
    requires !e.InitiateCard?
  {
    match e
    case ProvidusCredit(_, _, _, _, _) => ProcessProvidus(s, e)
    case PaystackCharge(_, _, _, _, _, _) => ProcessCharge(s, e)
    case PaystackOther(_, fault, _) => (s, if fault == MarkThrows then Failed else Done)
  }

  /** A recorded delivery is acknowledged and ignored. */
  function Step(s: State, e: Event): State {
    if e.InitiateCard? then
      s.(deposits := s.deposits + [Deposit(e.wallet, CardReference(e.suffix), e.asked, Pending)])
    else if Key(e) in s.webhooks then s
    else
      var (processed, mark) := Process(s, e);
      processed.(webhooks := processed.webhooks[Key(e) := mark])
  }

  function Run(events: seq<Event>): State {
    if events == [] then EMPTY else Step(Run(events[..|events| - 1]), events[|events| - 1])
  }

  // ----- repeated deliveries

  predicate Delivered(events: seq<Event>, key: (Provider, string)) {
    exists i :: 0 <= i < |events| && !events[i].InitiateCard? && Key(events[i]) == key
  }

  /** The run with every repeated delivery struck out. */
  function FirstDeliveries(events: seq<Event>): seq<Event> {
    if events == [] then []
    else
      var before, e := events[..|events| - 1], events[|events| - 1];
      var kept := FirstDeliveries(before);
      if !e.InitiateCard? && Delivered(before, Key(e)) then kept else kept + [e]
  }

  lemma ProcessKeepsWebhooks(s: State, e: Event)
    requires !e.InitiateCard?
    ensures Process(s, e).0.webhooks == s.webhooks
  {
  }

  lemma {:induction false} RecordedIffDelivered(events: seq<Event>, key: (Provider, string))
    ensures key in Run(events).webhooks <==> Delivered(events, key)
  {
    if events != [] {
      var n := |events| - 1;
      RecordedIffDelivered(events[..n], key);
      if !events[n].InitiateCard? {
        ProcessKeepsWebhooks(Run(events[..n]), events[n]);
      }
      assert Delivered(events, key) <==>
               Delivered(events[..n], key) || (!events[n].InitiateCard? && Key(events[n]) == key) by {
        if Delivered(events[..n], key) {
          var i :| 0 <= i < n && !events[..n][i].InitiateCard? && Key(events[..n][i]) == key;
          assert events[i] == events[..n][i];
        }
        if Delivered(events, key) {
          var i :| 0 <= i < |events| && !events[i].InitiateCard? && Key(events[i]) == key;
          assert i < n ==> events[..n][i] == events[i];
        }
      }
    }
  }

  /**
   However often deliveries are repeated under the id they first came with, whatever the repeats carry,
   the run ends as if each had come once.
   */
  lemma {:induction false} RepeatsChangeNothing(events: seq<Event>)
    ensures Run(events) == Run(FirstDeliveries(events))
  {
    if events != [] {
      var before, e := events[..|events| - 1], events[|events| - 1];
      RepeatsChangeNothing(before);
      if !e.InitiateCard? && Delivered(before, Key(e)) {
        RecordedIffDelivered(before, Key(e));
      } else {
        assert (FirstDeliveries(before) + [e])[..|FirstDeliveries(before)|] == FirstDeliveries(before);
      }
    }
  }

  /** The same payload, delivered at another moment. */
  function At(e: Event, now: nat): Event
    requires e.ProvidusCredit?
  {
    ProvidusCredit(e.id, e.account, e.amount, e.fault, now)
  }

  /** A payload without an id is a new delivery each millisecond. */
  lemma KeyOfRepeat(e: Event, now: nat)
    requires e.ProvidusCredit?
    ensures Key(At(e, now)) == if e.id.Some? then Key(e) else (Providus, "PRV-" + Decimal(now))
  {
  }

  /**
   A Providus payload that has come before comes again: it is credited again if and only if it carries no
   id and nothing has been recorded under the new moment's id.
   */
  lemma RepeatIsCreditedIff(events: seq<Event>, e: Event, now: nat)
    requires e.ProvidusCredit? && e.account.Active? && e.amount.Kobo? && e.amount.kobo > 0 && e.fault == NoFault
    requires Delivered(events, Key(e))
    ensures var s, again := Run(events), At(e, now);
            Step(s, again).fundings
            == if e.id.None? && !Delivered(events, (Providus, "PRV-" + Decimal(now)))
               then s.fundings + [Funding(e.account.wallet, ProvidusReference(DeliveryId(again)), e.amount.kobo)]
               else s.fundings
  {
    var again := At(e, now);
    KeyOfRepeat(e, now);
    RecordedIffDelivered(events, Key(again));
    if Key(again) !in Run(events).webhooks {
      RunKeepsOwned(events);
      NewReferenceIsFree(Run(events), DeliveryId(again));
    }
  }

  lemma OneAndTwo()
    ensures Decimal(1) == "1" && Decimal(2) == "2"
  {
  }

  /** One transfer into wallet 0, reported without an id. */
  function Unnamed(now: nat): Event {
    ProvidusCredit(None, Active(0), Kobo(100), NoFault, now)
  }

  /** Reported twice, a millisecond apart, it is credited twice. */
  lemma RepeatWithoutIdCreditsTwice()
    ensures Run([Unnamed(1), Unnamed(2)]).fundings 
            == [Funding(0, ProvidusReference("PRV-" + "1"), 100), Funding(0, ProvidusReference("PRV-" + "2"), 100)]
  {
    OneAndTwo();
    var once := [Unnamed(1)];
    assert once[..0] == [] && [Unnamed(1), Unnamed(2)][..1] == once;
    assert Key(Unnamed(1)) == (Providus, "PRV-" + "1");
    assert Run(once) == Step(EMPTY, Unnamed(1));
    assert Run(once).fundings == [Funding(0, ProvidusReference("PRV-" + "1"), 100)];
    assert once[0] == Unnamed(1) && Key(once[0]) == Key(Unnamed(1));
    assert Delivered(once, Key(Unnamed(1)));
    assert ("PRV-" + "1")[4] != ("PRV-" + "2")[4];
    assert !Delivered(once, (Providus, "PRV-" + "2"));
    RepeatIsCreditedIff(once, Unnamed(1), 2);
  }

  predicate ChargesOf(events: seq<Event>, reference: string) {
    forall i :: 0 <= i < |events| ==> events[i].PaystackCharge? && events[i].reference == Some(reference)
  }

  lemma ChargeAfterCredit(s: State, e: Event)
    requires e.PaystackCharge? && e.reference.Some? && HasReference(s.fundings, e.reference.value)
    ensures Step(s, e).deposits == s.deposits && Step(s, e).fundings == s.fundings
  {
  }

  lemma RunOfLonger(events: seq<Event>, more: seq<Event>)
    requires more != []
    ensures Run(events + more) == Step(Run(events + more[..|more| - 1]), more[|more| - 1])
  {
    assert (events + more)[..|events + more| - 1] == events + more[..|more| - 1];
  }

  /**
   Paystack charges stay single without any id: once a reference is credited, no number of charges for it,
   under whatever ids and at whatever moments, changes a deposit or adds a credit.
   */
  lemma {:induction false} LaterChargesChangeNothing(events: seq<Event>, more: seq<Event>, reference: string)
    requires HasReference(Run(events).fundings, reference) && ChargesOf(more, reference)
    ensures Run(events + more).deposits == Run(events).deposits && Run(events + more).fundings == Run(events).fundings
  {
    if more == [] {
      assert events + more == events;
    } else {
      var before, e := more[..|more| - 1], more[|more| - 1];
      LaterChargesChangeNothing(events, before, reference);
      RunOfLonger(events, more);
      ChargeAfterCredit(Run(events + before), e);
    }
  }

  // ----- one credit for each reference

  ghost predicate OncePerReference(fundings: seq<Funding>) {
    && (forall i, j :: 0 <= i < j < |fundings| ==> fundings[i].reference != fundings[j].reference)
    && (forall i :: 0 <= i < |fundings| ==> fundings[i].amount > 0)
  }

  lemma {:induction false} OneCreditPerReference(events: seq<Event>)
    ensures OncePerReference(Run(events).fundings)
  {
    if events != [] {
      var before, e := events[..|events| - 1], events[|events| - 1];
      OneCreditPerReference(before);
      StepKeepsOnce(Run(before), e);
    }
  }

  lemma StepKeepsOnce(s: State, e: Event)
    requires OncePerReference(s.fundings)
    ensures OncePerReference(Step(s, e).fundings)
  {
  }

  // ----- the books

  function CompletedSum(deposits: seq<Deposit>, wallet: int): int {
    if deposits == [] then 0
    else
      var d := deposits[|deposits| - 1];
      CompletedSum(deposits[..|deposits| - 1], wallet)
      + if d.wallet == wallet && d.status == Completed then d.amount else 0
  }

  function FundingSum(fundings: seq<Funding>, wallet: int): int {
    if fundings == [] then 0
    else
      var f := fundings[|fundings| - 1];
      FundingSum(fundings[..|fundings| - 1], wallet) + if f.wallet == wallet then f.amount else 0
  }

  /**
   A Providus delivery whose deposit row is written and whose credit then throws. The row stays
   completed, the delivery stays recorded, and nothing retries it.
   */
  predicate LosesCredit(before: seq<Event>, e: Event) {
    && e.ProvidusCredit? && !Delivered(before, Key(e))
    && e.account.Active? && e.amount.Kobo? && e.fault != DepositThrows
    && (e.fault == CreditThrows || e.amount.kobo <= 0)
  }

  function LostIds(events: seq<Event>): set<string> {
    if events == [] then {}
    else
      var before, e := events[..|events| - 1], events[|events| - 1];
      if LosesCredit(before, e) then LostIds(before) + {DeliveryId(e)} else LostIds(before)
  }

  function LostSum(events: seq<Event>, wallet: int): int {
    if events == [] then 0
    else
      var before, e := events[..|events| - 1], events[|events| - 1];
      LostSum(before, wallet)
      + if LosesCredit(before, e) && e.account.wallet == wallet then e.amount.kobo else 0
  }

  lemma ReferencesDiffer(a: string, b: string)
    ensures CardReference(a) != ProvidusReference(b)
    ensures ProvidusReference(a) == ProvidusReference(b) ==> a == b
  {
    assert CardReference(a)[0] == 'D' && ProvidusReference(b)[0] == 'P';
    assert ProvidusReference(a)[4..] == a && ProvidusReference(b)[4..] == b;
  }

  /** Only a recorded Providus delivery leaves a row or a credit under its reference, and the row is completed. */
  ghost predicate ReferencesAreOwned(s: State) {
    && (forall i, id :: 0 <= i < |s.deposits| && s.deposits[i].reference == ProvidusReference(id) ==>
          (Providus, id) in s.webhooks && s.deposits[i].status == Completed)
    && (forall i, id :: 0 <= i < |s.fundings| && s.fundings[i].reference == ProvidusReference(id) ==>
          (Providus, id) in s.webhooks)
  }

  predicate IsCredited(s: State, d: Deposit) {
    Funding(d.wallet, d.reference, d.amount) in s.fundings
  }

  /** What LosesCredit says, against the state instead of the history. */
  predicate Loses(s: State, e: Event) {
    && e.ProvidusCredit? && Key(e) !in s.webhooks
    && e.account.Active? && e.amount.Kobo? && e.fault != DepositThrows
    && (e.fault == CreditThrows || e.amount.kobo <= 0)
  }

  lemma {:induction false} CompleteRow(deposits: seq<Deposit>, row: nat, wallet: int)
    requires row < |deposits|
    ensures var d := deposits[row];
            CompletedSum(deposits[row := d.(status := Completed)], wallet)
            == CompletedSum(deposits, wallet) + if d.wallet == wallet && d.status == Pending then d.amount else 0
  {
    var n := |deposits| - 1;
    var later := deposits[row := deposits[row].(status := Completed)];
    if row < n {
      CompleteRow(deposits[..n], row, wallet);
      assert later[..n] == deposits[..n][row := deposits[row].(status := Completed)];
    } else {
      assert later[..n] == deposits[..n];
    }
  }

  /** The three ways creditWallet ends, and what each does to the sums. */
  lemma CreditMovesSums(s: State, row: nat, throws: bool, wallet: int)
    requires row < |s.deposits|
    ensures var d := s.deposits[row];
            var c := Credit(s, row, throws).0;
            if c == s then true
            else
              && FundingSum(c.fundings, wallet)
                 == FundingSum(s.fundings, wallet) + (if d.wallet == wallet then d.amount else 0)
              && CompletedSum(c.deposits, wallet) == CompletedSum(s.deposits, wallet)
                 + (if d.wallet == wallet && d.status == Pending then d.amount else 0)
  {
    var d := s.deposits[row];
    CompleteRow(s.deposits, row, wallet);
    var grown := s.fundings + [Funding(d.wallet, d.reference, d.amount)];
    assert grown[..|s.fundings|] == s.fundings;
  }

  function Gap(s: State, wallet: int): int {
    CompletedSum(s.deposits, wallet) - FundingSum(s.fundings, wallet)
  }

  lemma AppendDeposit(deposits: seq<Deposit>, d: Deposit, wallet: int)
    ensures CompletedSum(deposits + [d], wallet)
            == CompletedSum(deposits, wallet) + if d.wallet == wallet && d.status == Completed then d.amount else 0
  {
    assert (deposits + [d])[..|deposits|] == deposits;
  }

  /** Recording a completed deposit and crediting it opens a gap exactly when the credit throws. */
  lemma CreditRecorded(s: State, d: Deposit, throws: bool, wallet: int)
    requires d.status == Completed && !HasReference(s.fundings, d.reference)
    ensures var recorded := s.(deposits := s.deposits + [d]);
            Gap(Credit(recorded, |s.deposits|, throws).0, wallet)
            == Gap(s, wallet) + if (throws || d.amount <= 0) && d.wallet == wallet then d.amount else 0
  {
    AppendDeposit(s.deposits, d, wallet);
    CreditMovesSums(s.(deposits := s.deposits + [d]), |s.deposits|, throws, wallet);
  }

  lemma NewReferenceIsFree(s: State, id: string)
    requires ReferencesAreOwned(s) && (Providus, id) !in s.webhooks
    ensures !HasReference(s.fundings, ProvidusReference(id))
  {
  }

  lemma ProvidusMovesGap(s: State, e: Event, wallet: int)
    requires e.ProvidusCredit? && Key(e) !in s.webhooks && ReferencesAreOwned(s)
    ensures Gap(ProcessProvidus(s, e).0, wallet)
            == Gap(s, wallet) + if Loses(s, e) && e.account.wallet == wallet then e.amount.kobo else 0
  {
    if e.account.Active? && e.amount.Kobo? && e.fault != DepositThrows {
      NewReferenceIsFree(s, DeliveryId(e));
      CreditRecorded(s, Deposit(e.account.wallet, ProvidusReference(DeliveryId(e)), e.amount.kobo, Completed),
        e.fault == CreditThrows, wallet);
    }
  }

  lemma ChargeKeepsGap(s: State, e: Event, wallet: int)
    requires e.PaystackCharge?
    ensures Gap(ProcessCharge(s, e).0, wallet) == Gap(s, wallet)
  {
    if e.reference.Some? {
      var row := FindRow(s.deposits, e.reference.value, e.row);
      if row < |s.deposits| {
        CreditMovesSums(s, row, e.fault == CreditThrows, wallet);
      }
    }
  }

  lemma StepMovesGap(s: State, e: Event, wallet: int)
    requires ReferencesAreOwned(s)
    ensures Gap(Step(s, e), wallet)
            == Gap(s, wallet) + if Loses(s, e) && e.account.wallet == wallet then e.amount.kobo else 0
  {
    match e
    case InitiateCard(w, asked, suffix) =>
      AppendDeposit(s.deposits, Deposit(w, CardReference(suffix), asked, Pending), wallet);
    case ProvidusCredit(_, _, _, _, _) =>
      if Key(e) !in s.webhooks {
        ProvidusMovesGap(s, e, wallet);
      }
    case PaystackCharge(_, _, _, _, _, _) =>
      ChargeKeepsGap(s, e, wallet);
    case PaystackOther(_, _, _) =>
  }

  lemma ProcessKeepsOwned(s: State, e: Event)
    requires !e.InitiateCard? && Key(e) !in s.webhooks && ReferencesAreOwned(s)
    ensures ReferencesAreOwned(Step(s, e))
  {
    if e.ProvidusCredit? {
      forall id | ProvidusReference(DeliveryId(e)) == ProvidusReference(id) ensures id == DeliveryId(e) {
        ReferencesDiffer(DeliveryId(e), id);
      }
    }
  }

  lemma StepKeepsOwned(s: State, e: Event)
    requires ReferencesAreOwned(s)
    ensures ReferencesAreOwned(Step(s, e))
  {
    if e.InitiateCard? {
      forall id ensures CardReference(e.suffix) != ProvidusReference(id) {
        ReferencesDiffer(e.suffix, id);
      }
    } else if Key(e) !in s.webhooks {
      ProcessKeepsOwned(s, e);
    }
  }

  lemma {:induction false} RunKeepsOwned(events: seq<Event>)
    ensures ReferencesAreOwned(Run(events))
  {
    if events != [] {
      RunKeepsOwned(events[..|events| - 1]);
      StepKeepsOwned(Run(events[..|events| - 1]), events[|events| - 1]);
    }
  }

  /**
   In every run a wallet's completed deposits are its funding credits and the amounts of the Providus
   deliveries that lost theirs.
   */
  lemma {:induction false} BooksBalance(events: seq<Event>, wallet: int)
    ensures CompletedSum(Run(events).deposits, wallet) == FundingSum(Run(events).fundings, wallet) + LostSum(events, wallet)
  {
    if events != [] {
      var before, e := events[..|events| - 1], events[|events| - 1];
      BooksBalance(before, wallet);
      RunKeepsOwned(before);
      StepMovesGap(Run(before), e, wallet);
      if e.ProvidusCredit? {
        RecordedIffDelivered(before, Key(e));
      }
    }
  }

  // ----- which deposits were credited

  ghost predicate LostAreUncredited(s: State, lost: set<string>) {
    && (forall id :: id in lost ==> (Providus, id) in s.webhooks)
    && (forall i, id :: 0 <= i < |s.fundings| && id in lost ==> s.fundings[i].reference != ProvidusReference(id))
    && (forall i :: 0 <= i < |s.deposits| && s.deposits[i].status == Completed ==>
          IsCredited(s, s.deposits[i]) || IsLost(s.deposits[i].reference, lost))
  }

  ghost predicate IsLost(reference: string, lost: set<string>) {
    exists id :: id in lost && reference == ProvidusReference(id)
  }

  lemma CreditGrows(s: State, row: nat, throws: bool, lost: set<string>)
    requires row < |s.deposits| && LostAreUncredited(s, lost) && !IsLost(s.deposits[row].reference, lost)
    ensures LostAreUncredited(Credit(s, row, throws).0, lost)
  {
    var d, c := s.deposits[row], Credit(s, row, throws).0;
    if c != s {
      assert c.fundings[|s.fundings|] == Funding(d.wallet, d.reference, d.amount);
      forall i | 0 <= i < |c.deposits| && c.deposits[i].status == Completed
        ensures IsCredited(c, c.deposits[i]) || IsLost(c.deposits[i].reference, lost)
      {
        if i != row && IsCredited(s, s.deposits[i]) {
          var k :| 0 <= k < |s.fundings| && s.fundings[k]
                     == Funding(s.deposits[i].wallet, s.deposits[i].reference, s.deposits[i].amount);
          assert c.fundings[k] == s.fundings[k];
        }
      }
    }
  }

  lemma MarkKeepsLost(s: State, lost: set<string>, key: (Provider, string), mark: Mark)
    requires LostAreUncredited(s, lost)
    ensures LostAreUncredited(s.(webhooks := s.webhooks[key := mark]), lost)
  {
    var later := s.(webhooks := s.webhooks[key := mark]);
    forall i | 0 <= i < |s.deposits| && s.deposits[i].status == Completed
      ensures IsCredited(later, later.deposits[i]) || IsLost(later.deposits[i].reference, lost)
    {
      assert IsCredited(s, s.deposits[i]) ==> IsCredited(later, later.deposits[i]);
    }
  }

  lemma ProvidusKeepsLost(s: State, e: Event, lost: set<string>)
    requires e.ProvidusCredit? && Key(e) !in s.webhooks && ReferencesAreOwned(s) && LostAreUncredited(s, lost)
    ensures LostAreUncredited(Step(s, e), if Loses(s, e) then lost + {DeliveryId(e)} else lost)
  {
    if e.account.Active? && e.amount.Kobo? && e.fault != DepositThrows {
      var d := Deposit(e.account.wallet, ProvidusReference(DeliveryId(e)), e.amount.kobo, Completed);
      var after, now := Step(s, e), if Loses(s, e) then lost + {DeliveryId(e)} else lost;
      assert !HasReference(s.fundings, d.reference);
      assert after.deposits == s.deposits + [d];
      forall id | id in lost ensures ProvidusReference(id) != d.reference {
        ReferencesDiffer(id, DeliveryId(e));
      }
      assert Loses(s, e) ==> after.fundings == s.fundings;
      assert !Loses(s, e) ==> after.fundings == s.fundings + [Funding(d.wallet, d.reference, d.amount)];
      forall i | 0 <= i < |after.deposits| && after.deposits[i].status == Completed
        ensures IsCredited(after, after.deposits[i]) || IsLost(after.deposits[i].reference, now)
      {
        if i == |s.deposits| {
          assert !Loses(s, e) ==> after.fundings[|s.fundings|] == Funding(d.wallet, d.reference, d.amount);
          assert Loses(s, e) ==> DeliveryId(e) in now;
        } else {
          OldRowsStay(s, after, s.deposits[i], lost, now);
        }
      }
    } else {
      MarkKeepsLost(s, lost, Key(e), Failed);
    }
  }

  lemma OldRowsStay(s: State, after: State, d: Deposit, lost: set<string>, now: set<string>)
    requires IsCredited(s, d) || IsLost(d.reference, lost)
    requires s.fundings <= after.fundings && lost <= now
    ensures IsCredited(after, d) || IsLost(d.reference, now)
  {
    if IsCredited(s, d) {
      var k :| 0 <= k < |s.fundings| && s.fundings[k] == Funding(d.wallet, d.reference, d.amount);
      assert after.fundings[k] == s.fundings[k];
    }
  }

  lemma ChargeKeepsLost(s: State, e: Event, lost: set<string>)
    requires e.PaystackCharge? && ReferencesAreOwned(s) && LostAreUncredited(s, lost)
    ensures LostAreUncredited(ProcessCharge(s, e).0, lost)
  {
    if e.reference.Some? {
      var row := FindRow(s.deposits, e.reference.value, e.row);
      if row < |s.deposits| && s.deposits[row].status == Pending {
        CreditGrows(s, row, e.fault == CreditThrows, lost);
      }
    }
  }

  lemma StepKeepsLost(s: State, e: Event, lost: set<string>)
    requires ReferencesAreOwned(s) && LostAreUncredited(s, lost)
    ensures LostAreUncredited(Step(s, e), if Loses(s, e) then lost + {DeliveryId(e)} else lost)
  {
    match e
    case InitiateCard(w, asked, suffix) =>
      forall i | 0 <= i < |s.deposits| && s.deposits[i].status == Completed
        ensures IsCredited(Step(s, e), s.deposits[i]) || IsLost(s.deposits[i].reference, lost)
      {
        OldRowsStay(s, Step(s, e), s.deposits[i], lost, lost);
      }
    case ProvidusCredit(_, _, _, _, _) =>
      if Key(e) !in s.webhooks {
        ProvidusKeepsLost(s, e, lost);
      }
    case PaystackCharge(_, _, _, _, _, _) =>
      if Key(e) !in s.webhooks {
        ChargeKeepsLost(s, e, lost);
        MarkKeepsLost(ProcessCharge(s, e).0, lost, Key(e), ProcessCharge(s, e).1);
      }
    case PaystackOther(_, fault, _) =>
      if Key(e) !in s.webhooks {
        MarkKeepsLost(s, lost, Key(e), Process(s, e).1);
      }
  }

  lemma {:induction false} RunKeepsLost(events: seq<Event>)
    ensures LostAreUncredited(Run(events), LostIds(events))
  {
    if events != [] {
      var before, e := events[..|events| - 1], events[|events| - 1];
      RunKeepsLost(before);
      RunKeepsOwned(before);
      StepKeepsLost(Run(before), e, LostIds(before));
      if e.ProvidusCredit? {
        RecordedIffDelivered(before, Key(e));
      }
    }
  }

  /**
   A completed deposit has its credit, for the same wallet, reference and amount, exactly when it is
   not a Providus deposit whose one processed delivery threw in creditWallet.
   */
  lemma CreditedUnlessLost(events: seq<Event>, row: nat)
    requires row < |Run(events).deposits| && Run(events).deposits[row].status == Completed
    ensures IsCredited(Run(events), Run(events).deposits[row])
            <==> !IsLost(Run(events).deposits[row].reference, LostIds(events))
  {
    var s, d := Run(events), Run(events).deposits[row];
    RunKeepsLost(events);
    if IsCredited(s, d) {
      var k :| 0 <= k < |s.fundings| && s.fundings[k] == Funding(d.wallet, d.reference, d.amount);
      assert s.fundings[k].reference == d.reference;
    }
  }

  /** A lost credit is lost for good: no continuation of the run ever credits its reference. */
  lemma LostStaysLost(events: seq<Event>, more: seq<Event>, id: string)
    requires id in LostIds(events)
    ensures !HasReference(Run(events + more).fundings, ProvidusReference(id))
  {
    LostIdsGrow(events, more);
    RunKeepsLost(events + more);
  }

  lemma {:induction false} LostIdsGrow(events: seq<Event>, more: seq<Event>)
    ensures LostIds(events) <= LostIds(events + more)
  {
    if more == [] {
      assert events + more == events;
    } else {
      LostIdsGrow(events, more[..|more| - 1]);
      assert (events + more)[..|events + more| - 1] == events + more[..|more| - 1];
    }
  }

  // ----- what each delivery does, exactly

  /** The row a charge is about: any deposit with its reference, and the database's choice among several. */
  ghost predicate IsAbout(s: State, e: Event, row: nat)
    requires e.PaystackCharge?
  {
    && row < |s.deposits| && e.reference == Some(s.deposits[row].reference)
    && (e.row < |s.deposits| && s.deposits[e.row].reference == s.deposits[row].reference ==> row == e.row)
    && (row == e.row || forall i :: 0 <= i < row ==> s.deposits[i].reference != s.deposits[row].reference)
  }

  /** A pending deposit of a positive amount with no credit yet, and a charge that carries an amount and meets no fault. */
  ghost predicate IsDue(s: State, e: Event, row: nat)
    requires e.PaystackCharge?
  {
    && IsAbout(s, e, row) && s.deposits[row].reference != ""
    && s.deposits[row].status == Pending && s.deposits[row].amount > 0
    && (forall i :: 0 <= i < |s.fundings| ==> s.fundings[i].reference != s.deposits[row].reference)
    && e.amount != Missing && e.fault != DepositThrows && e.fault != CreditThrows
  }

  lemma FoundIsAbout(s: State, e: Event)
    requires e.PaystackCharge? && e.reference.Some?
    ensures var row := FindRow(s.deposits, e.reference.value, e.row);
            && (forall r: nat :: IsAbout(s, e, r) ==> r == row)
            && (row < |s.deposits| ==> IsAbout(s, e, row))
  {
  }

  /** The deposits and credits when the deposit in this row has been credited in full. */
  ghost predicate RowIsCredited(s: State, after: State, row: nat) {
    && row < |s.deposits| == |after.deposits|
    && after.fundings == s.fundings + [Funding(s.deposits[row].wallet, s.deposits[row].reference, s.deposits[row].amount)]
    && after.deposits[row] == Deposit(s.deposits[row].wallet, s.deposits[row].reference, s.deposits[row].amount, Completed)
    && forall i :: 0 <= i < |s.deposits| && i != row ==> after.deposits[i] == s.deposits[i]
  }

  /**
   After any run, a charge not yet recorded credits the stored deposit it is about and completes it, if and
   only if that deposit is due; otherwise it leaves every deposit and credit alone. Either way it is recorded.
   */
  lemma ChargeCreditsIff(events: seq<Event>, e: Event, row: nat)
    requires e.PaystackCharge? && !Delivered(events, Key(e))
    ensures var s, after := Run(events), Step(Run(events), e);
            && (IsDue(s, e, row) <==> IsAbout(s, e, row) && RowIsCredited(s, after, row))
            && ((forall r: nat :: !IsDue(s, e, r)) ==> after.deposits == s.deposits && after.fundings == s.fundings)
            && Key(e) in after.webhooks
  {
    var s := Run(events);
    RecordedIffDelivered(events, Key(e));
    if e.reference.Some? {
      FoundIsAbout(s, e);
      var r := FindRow(s.deposits, e.reference.value, e.row);
      if IsDue(s, e, r) {
        assert !HasReference(s.fundings, s.deposits[r].reference);
      }
    }
  }

  /** The credit of this deposit is still to be made. */
  ghost predicate Awaits(s: State, e: Event, row: nat)
    requires e.PaystackCharge?
  {
    && IsAbout(s, e, row) && s.deposits[row].status == Pending
    && forall i :: 0 <= i < |s.fundings| && s.fundings[i].reference == s.deposits[row].reference ==>
         s.fundings[i].wallet != s.deposits[row].wallet
  }

  /**
   A charge is marked as done exactly when nothing threw: not the lookup, if there is anything to look up, not
   the credit, if one was to be made, and not the last update.
   */
  lemma ChargeMarkTells(events: seq<Event>, e: Event)
    requires e.PaystackCharge? && !Delivered(events, Key(e))
    ensures var s, after := Run(events), Step(Run(events), e);
            && Key(e) in after.webhooks
            && (after.webhooks[Key(e)] == Done <==>
                  && e.fault != MarkThrows
                  && (e.reference.Some? && e.reference.value != "" && e.amount != Missing ==>
                        e.fault != DepositThrows && forall row: nat :: Awaits(s, e, row) ==> IsDue(s, e, row)))
            && after.webhooks[Key(e)] != Processing
  {
    var s := Run(events);
    RecordedIffDelivered(events, Key(e));
    if e.reference.Some? {
      FoundIsAbout(s, e);
      var row := FindRow(s.deposits, e.reference.value, e.row);
      assert row < |s.deposits| && s.deposits[row].status == Pending ==>
          (Awaits(s, e, row) <==> !HasEntry(s.fundings, s.deposits[row].wallet, s.deposits[row].reference));
    }
  }

  /**
   After any run, a Providus delivery not yet recorded adds one completed deposit under its id exactly when its
   account is active and its amount is in whole kobo, and credits that wallet with that amount exactly when the
   amount is positive and the credit does not throw. It touches no earlier row.
   */
  lemma ProvidusCreditsIff(events: seq<Event>, e: Event)
    requires e.ProvidusCredit? && !Delivered(events, Key(e))
    ensures var s, after := Run(events), Step(Run(events), e);
            var stored := e.account.Active? && e.amount.Kobo? && e.fault != DepositThrows;
            var credited := stored && e.amount.kobo > 0 && e.fault != CreditThrows;
            && after.deposits == (if stored
               then s.deposits + [Deposit(e.account.wallet, "PRV-" + DeliveryId(e), e.amount.kobo, Completed)]
               else s.deposits)
            && after.fundings == (if credited
               then s.fundings + [Funding(e.account.wallet, "PRV-" + DeliveryId(e), e.amount.kobo)] else s.fundings)
            && Key(e) in after.webhooks
            && after.webhooks[Key(e)] == if credited && e.fault != MarkThrows then Done else Failed
  {
    RecordedIffDelivered(events, Key(e));
    RunKeepsOwned(events);
    NewReferenceIsFree(Run(events), DeliveryId(e));
  }

  /** The number a decimal text stands for. */
  function Read(text: string): int {
    if text == "" then 0 else Read(text[..|text| - 1]) * 10 + (text[|text| - 1] as int - '0' as int)
  }

  lemma ReadAppend(text: string, c: char)
    ensures Read(text + [c]) == Read(text) * 10 + (c as int - '0' as int)
  {
    assert (text + [c])[..|text|] == text;
  }

  lemma {:induction false} DecimalReads(n: nat)
    ensures Read(Decimal(n)) == n
  {
    var digit := '0' + (n % 10) as char;
    assert digit as int - '0' as int == n % 10;
    if n < 10 {
      ReadAppend("", digit);
      assert "" + [digit] == Decimal(n);
    } else {
      DecimalReads(n / 10);
      ReadAppend(Decimal(n / 10), digit);
    }
  }

  /** Two moments give two ids: of deliveries without an id, only those of one millisecond share theirs. */
  lemma MomentsAreToldApart(now: nat, later: nat)
    ensures Decimal(now) == Decimal(later) <==> now == later
    ensures "PRV-" + Decimal(now) == "PRV-" + Decimal(later) <==> now == later
    ensures "PSK-" + Decimal(now) == "PSK-" + Decimal(later) <==> now == later
  {
    DecimalReads(now);
    DecimalReads(later);
    assert ("PRV-" + Decimal(now))[4..] == Decimal(now) && ("PRV-" + Decimal(later))[4..] == Decimal(later);
    assert ("PSK-" + Decimal(now))[4..] == Decimal(now) && ("PSK-" + Decimal(later))[4..] == Decimal(later);
  }

  /** The id of a delivery is its own, or the moment's for a payload without one. */
  lemma DeliveryIdIs(e: Event)
    requires !e.InitiateCard?
    ensures e.id.Some? ==> Key(e) == (if e.ProvidusCredit? then Providus else Paystack, e.id.value)
    ensures e.id.None? ==> DeliveryId(e) == (if e.ProvidusCredit? then "PRV-" else "PSK-") + Decimal(e.now)
  {
  }

  /** What moves no money: a new card deposit waits, a recorded delivery is ignored, another Paystack event is filed. */
  lemma OthersCreditNothing(s: State, e: Event)
    requires e.InitiateCard? || Key(e) in s.webhooks || e.PaystackOther?
    ensures var after := Step(s, e);
            && after.fundings == s.fundings
            && after.deposits == (if e.InitiateCard?
               then s.deposits + [Deposit(e.wallet, "DEP-" + e.suffix, e.asked, Pending)] else s.deposits)
            && (e.InitiateCard? || Key(e) in s.webhooks ==> after.webhooks == s.webhooks)
            && (e.PaystackOther? && Key(e) !in s.webhooks ==>
                  after.webhooks == s.webhooks[Key(e) := if e.fault == MarkThrows then Failed else Done])
  {
  }

  // ----- the service

  lemma ProcessIgnoresRecords(s: State, e: Event, records: map<(Provider, string), Mark>)
    requires !e.InitiateCard?
    ensures Process(s.(webhooks := records), e) == (Process(s, e).0.(webhooks := records), Process(s, e).1)
  {
  }

  /** The deposit, transaction and webhook tables in place. */
  class WebhookStore {
    var deposits: seq<Deposit>
    var fundings: seq<Funding>
    var webhooks: map<(Provider, string), Mark>

    ghost function View(): State
      reads this
    {
      State(deposits, fundings, webhooks)
    }

    constructor ()
      ensures View() == EMPTY
    {
      deposits, fundings, webhooks := [], [], map[];
    }

    method InitiateCardDeposit(wallet: int, amount: int, suffix: string)
      modifies this
      ensures View() == Step(old(View()), InitiateCard(wallet, amount, suffix))
    {
      deposits := deposits + [Deposit(wallet, CardReference(suffix), amount, Pending)];
    }

    method RecordWebhook(provider: Provider, id: string) returns (already: bool)
      modifies this`webhooks
      ensures already == ((provider, id) in old(webhooks))
      ensures webhooks == if already then old(webhooks) else old(webhooks)[(provider, id) := Processing]
    {
      already := (provider, id) in webhooks;
      if !already {
        webhooks := webhooks[(provider, id) := Processing];
      }
    }

    method CreditWallet(row: nat, throws: bool) returns (ok: bool)
      requires row < |deposits|
      modifies this`deposits, this`fundings
      ensures (View(), ok) == Credit(old(View()), row, throws)
    {
      var d := deposits[row];
      if HasEntry(fundings, d.wallet, d.reference) {
        return true;
      }
      if throws || d.amount <= 0 || HasReference(fundings, d.reference) {
        return false;
      }
      fundings := fundings + [Funding(d.wallet, d.reference, d.amount)];
      deposits := deposits[row := d.(status := Completed)];
      return true;
    }

    /** What follows the record of a Providus delivery: the deposit row and its credit. */
    method ProcessProvidusCredit(e: Event) returns (mark: Mark)
      requires e.ProvidusCredit?
      modifies this`deposits, this`fundings
      ensures (View(), mark) == ProcessProvidus(old(View()), e)
    {
      if e.account.NoNumber? || e.amount.Missing? || e.amount.NotWhole? || !e.account.Active? || e.fault == DepositThrows {
        return Failed;
      }
      deposits := deposits + [Deposit(e.account.wallet, ProvidusReference(DeliveryId(e)), e.amount.kobo, Completed)];
      var ok := CreditWallet(|deposits| - 1, e.fault == CreditThrows);
      mark := if ok && e.fault != MarkThrows then Done else Failed;
    }

    /** handlePaystackChargeSuccess: the stored deposit decides wallet and amount. */
    method ProcessPaystackCharge(e: Event) returns (mark: Mark)
      requires e.PaystackCharge?
      modifies this`deposits, this`fundings
      ensures (View(), mark) == ProcessCharge(old(View()), e)
    {
      var ok := true;
      if e.reference.Some? && e.reference.value != "" && !e.amount.Missing? {
        if e.fault == DepositThrows {
          return Failed;
        }
        var row := FindRow(deposits, e.reference.value, e.row);
        if row < |deposits| && deposits[row].status != Completed {
          ok := CreditWallet(row, e.fault == CreditThrows);
        }
      }
      mark := if ok && e.fault != MarkThrows then Done else Failed;
    }

    method HandleProvidusWebhook(id: Option<string>, account: Account, amount: Amount, fault: Fault, now: nat)
      modifies this
      ensures View() == Step(old(View()), ProvidusCredit(id, account, amount, fault, now))
    {
      var e := ProvidusCredit(id, account, amount, fault, now);
      var webhookId := if id.Some? then id.value else "PRV-" + Decimal(now);
      var already := RecordWebhook(Providus, webhookId);
      if !already {
        ghost var recorded := View();
        ProcessIgnoresRecords(old(View()), e, webhooks);
        var mark := ProcessProvidusCredit(e);
        assert (View(), mark) == Process(recorded, e);
        webhooks := webhooks[(Providus, webhookId) := mark];
      }
    }

    method HandlePaystackCharge(
        id: Option<string>, reference: Option<string>, amount: Amount, preferred: nat, fault: Fault, now: nat)
      modifies this
      ensures View() == Step(old(View()), PaystackCharge(id, reference, amount, preferred, fault, now))
    {
      var e := PaystackCharge(id, reference, amount, preferred, fault, now);
      var webhookId := if id.Some? then id.value else "PSK-" + Decimal(now);
      var already := RecordWebhook(Paystack, webhookId);
      if !already {
        ghost var recorded := View();
        ProcessIgnoresRecords(old(View()), e, webhooks);
        var mark := ProcessPaystackCharge(e);
        assert (View(), mark) == Process(recorded, e);
        webhooks := webhooks[(Paystack, webhookId) := mark];
      }
    }

    method HandlePaystackOther(id: Option<string>, fault: Fault, now: nat)
      modifies this
      ensures View() == Step(old(View()), PaystackOther(id, fault, now))
    {
      var webhookId := if id.Some? then id.value else "PSK-" + Decimal(now);
      var already := RecordWebhook(Paystack, webhookId);
      if !already {
        webhooks := webhooks[(Paystack, webhookId) := if fault == MarkThrows then Failed else Done];
      }
    }
  }
}
