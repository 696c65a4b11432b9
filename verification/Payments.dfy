/** Customer payments and the derived paid flag.  Amounts are whole ten-thousandths, as the columns store
    them; balances are whole cents. */
module Payments {
  import opened Outcomes
  import opened Tables

  datatype Moment = Moment(year: int, instant: int)

  datatype SalesOrder = SalesOrder(
    customer: int, currency: int, completed: bool, cancelled: bool, total: int, deducted: int,
    paid: bool, zeroTime: Option<Moment>)

  datatype Payment = Payment(customer: int, currency: int, amount: int)

  datatype Application = Application(payment: int, order: int, amount: int, change: int, cancelled: bool)

  datatype State = State(
    orders: map<int, SalesOrder>, payments: map<int, Payment>, applications: map<int, Application>)

  datatype Refusal =
    | NotFound | OrderCancelled | OrderNotCompleted | CustomerMismatch | CurrencyMismatch | OrderSettled
    | ExceedsUnapplied | ExceedsBalance | AlreadyReversed | ReasonRequired

  type Outcome = Result<State, Refusal>

  /** A balance of a cent or less is settled. */
  const SETTLED := 1

  const CENT := 100

  // ----- figures

  /** Ten-thousandths to cents, halves up; what is owed is never below nothing. */
  function InCents(amount: int): int {
    if amount < 0 then 0 else (amount + CENT / 2) / CENT
  }

  function AppliedColumn(s: State, o: int): map<int, int> {
    map a | a in s.applications && s.applications[a].order == o && !s.applications[a].cancelled :: s.applications[a].amount
  }

  /** What live applications put on an order; change handed back is no part of it. */
  ghost function Applied(s: State, o: int): int {
    Total(AppliedColumn(s, o))
  }

  /** What an order owes before rounding, less than nothing when it was paid beyond. */
  ghost function Owed(s: State, o: int): int
    requires o in s.orders
  {
    s.orders[o].total - s.orders[o].deducted - Applied(s, o)
  }

  /** An order's total, less its refunds and credit notes, less what is applied to it. */
  ghost function Balance(s: State, o: int): int
    requires o in s.orders
  {
    InCents(Owed(s, o))
  }

  function UsedColumn(s: State, p: int): map<int, int> {
    map a | a in s.applications && s.applications[a].payment == p && !s.applications[a].cancelled
      :: s.applications[a].amount + s.applications[a].change
  }

  /** What is left of a payment: its amount less live applications and the change handed back. */
  ghost function Unapplied(s: State, p: int): int {
    if p in s.payments then s.payments[p].amount - Total(UsedColumn(s, p)) else 0
  }

  // ----- the flag

  function Stamped(zeroTime: Option<Moment>, now: Moment): Option<Moment> {
    if zeroTime.None? || zeroTime.value.year < 1900 then Some(now) else zeroTime
  }

  /** Flag an unpaid order paid once its balance is settled, and date its first settlement. */
  function Settled(order: SalesOrder, balance: int, now: Moment): SalesOrder {
    if order.paid || balance > SETTLED then order
    else order.(paid := true, zeroTime := Stamped(order.zeroTime, now))
  }

  /** Clear the flag when a balance leaves the settled range. */
  function Reopened(order: SalesOrder, before: int, after: int): SalesOrder {
    if before <= SETTLED < after then order.(paid := false) else order
  }

  // ----- operations

  ghost function ApplyRefusal(s: State, payment: int, order: int, amount: int, change: int): Option<Refusal> {
    if payment !in s.payments || order !in s.orders then Some(NotFound)
    else if s.orders[order].cancelled then Some(OrderCancelled)
    else if !s.orders[order].completed then Some(OrderNotCompleted)
    else if s.payments[payment].customer != s.orders[order].customer then Some(CustomerMismatch)
    else if s.payments[payment].currency != s.orders[order].currency then Some(CurrencyMismatch)
    else if s.orders[order].paid || Balance(s, order) <= SETTLED then Some(OrderSettled)
    else if amount + change > Unapplied(s, payment) then Some(ExceedsUnapplied)
    else if amount > Balance(s, order) * CENT then Some(ExceedsBalance)
    else None
  }

  /** Apply part of a payment to an order, and settle the order if that was the last of it. */
  ghost function Apply(s: State, payment: int, order: int, amount: int, change: int, now: Moment): Outcome {
    var refusal := ApplyRefusal(s, payment, order, amount, change);
    if refusal.Some? then Refused(refusal.value)
    else
      var applied := s.(applications := s.applications[
        NextId(s.applications) := Application(payment, order, amount, change, false)]);
      Ok(applied.(orders := s.orders[order := Settled(s.orders[order], Balance(applied, order), now)]))
  }

  /** Undo an application, keeping it on record. */
  ghost function Reverse(s: State, application: int, reason: bool): Outcome {
    if application !in s.applications then Refused(NotFound)
    else if s.applications[application].cancelled then Refused(AlreadyReversed)
    else if !reason then Refused(ReasonRequired)
    else
      var order := s.applications[application].order;
      var reversed := s.(applications := s.applications[application := s.applications[application].(cancelled := true)]);
      if order !in s.orders then Ok(reversed)
      else
        Ok(reversed.(orders := s.orders[order := Reopened(s.orders[order], Balance(s, order), Balance(reversed, order))]))
  }

  /** A refund completed, or a credit note confirmed: the order owes less. */
  ghost function Deduct(s: State, order: int, amount: int, now: Moment): Outcome {
    if order !in s.orders then Refused(NotFound)
    else
      var deducted := s.(orders := s.orders[order := s.orders[order].(deducted := s.orders[order].deducted + amount)]);
      Ok(deducted.(orders := deducted.orders[order := Settled(deducted.orders[order], Balance(deducted, order), now)]))
  }

  /** A credit note back to draft: the order owes that much again. */
  ghost function Restore(s: State, order: int, amount: int): Outcome {
    if order !in s.orders then Refused(NotFound)
    else
      var restored := s.(orders := s.orders[order := s.orders[order].(deducted := s.orders[order].deducted - amount)]);
      Ok(restored.(orders := restored.orders[
        order := Reopened(restored.orders[order], Balance(s, order), Balance(restored, order))]))
  }

  function Record(s: State, payment: Payment): State {
    s.(payments := s.payments[NextId(s.payments) := payment])
  }

  // ----- runs

  datatype Call =
    | Recording(received: Payment)
    | Applying(payment: int, order: int, amount: int, change: int, now: Moment)
    | Reversing(application: int, reason: bool)
    | Deducting(order: int, amount: int, now: Moment)
    | Restoring(order: int, amount: int)

  ghost function Answer(s: State, call: Call): Outcome {
    match call
    case Recording(payment) => Ok(Record(s, payment))
    case Applying(payment, order, amount, change, now) => Apply(s, payment, order, amount, change, now)
    case Reversing(application, reason) => Reverse(s, application, reason)
    case Deducting(order, amount, now) => Deduct(s, order, amount, now)
    case Restoring(order, amount) => Restore(s, order, amount)
  }

  ghost function After(s: State, call: Call): State {
    if Answer(s, call).Ok? then Answer(s, call).value else s
  }

  ghost function Run(s: State, calls: seq<Call>): State {
    if calls == [] then s else After(Run(s, calls[..|calls| - 1]), calls[|calls| - 1])
  }

  /** The request's bounds, amounts that are not negative, and a clock past 1900. */
  predicate Proper(call: Call) {
    match call
    case Recording(_) => true
    case Applying(_, _, amount, change, now) => amount > 0 && change >= 0 && now.year >= 1900
    case Reversing(_, _) => true
    case Deducting(_, amount, now) => amount >= 0 && now.year >= 1900
    case Restoring(_, amount) => amount >= 0
  }

  ghost predicate AllProper(calls: seq<Call>) {
    forall c :: c in calls ==> Proper(c)
  }

  /** The flag says what the balance says. */
  ghost predicate FlagRight(s: State, o: int) {
    o in s.orders ==> (s.orders[o].paid <==> Balance(s, o) <= SETTLED)
  }

  ghost predicate AmountsOk(s: State) {
    && (forall a :: a in s.applications ==> s.applications[a].amount > 0 && s.applications[a].change >= 0)
    && (forall a :: a in s.applications ==> s.applications[a].payment in s.payments)
  }

  // ----- sums

  lemma AppliedWith(s: State, t: State, id: int, a: Application, o: int)
    requires id !in s.applications && t.applications == s.applications[id := a] && !a.cancelled
    ensures Applied(t, o) == Applied(s, o) + if a.order == o then a.amount else 0
  {
    TotalBut(AppliedColumn(s, o), AppliedColumn(t, o), id);
  }

  lemma UsedWith(s: State, t: State, id: int, a: Application, p: int)
    requires id !in s.applications && t.applications == s.applications[id := a] && !a.cancelled
    ensures Total(UsedColumn(t, p)) == Total(UsedColumn(s, p)) + if a.payment == p then a.amount + a.change else 0
  {
    TotalBut(UsedColumn(s, p), UsedColumn(t, p), id);
  }

  lemma AppliedWithout(s: State, t: State, id: int, o: int)
    requires id in s.applications && !s.applications[id].cancelled
    requires t.applications == s.applications[id := s.applications[id].(cancelled := true)]
    ensures Applied(t, o) == Applied(s, o) - if s.applications[id].order == o then s.applications[id].amount else 0
  {
    TotalBut(AppliedColumn(s, o), AppliedColumn(t, o), id);
  }

  lemma UsedWithout(s: State, t: State, id: int, p: int)
    requires id in s.applications && !s.applications[id].cancelled
    requires t.applications == s.applications[id := s.applications[id].(cancelled := true)]
    ensures Total(UsedColumn(t, p)) == Total(UsedColumn(s, p))
              - if s.applications[id].payment == p then s.applications[id].amount + s.applications[id].change else 0
  {
    TotalBut(UsedColumn(s, p), UsedColumn(t, p), id);
  }

  lemma SameApplied(s: State, t: State, o: int)
    requires t.applications == s.applications
    ensures Applied(t, o) == Applied(s, o)
  {
    assert AppliedColumn(t, o) == AppliedColumn(s, o);
  }

  lemma SameUsed(s: State, t: State, p: int)
    requires t.applications == s.applications
    ensures Total(UsedColumn(t, p)) == Total(UsedColumn(s, p))
  {
    assert UsedColumn(t, p) == UsedColumn(s, p);
  }

  // ----- what each call moves

  /** What an order owes falls by what is applied and deducted, and rises by what is reversed and restored; nothing else
      changes what anyone owes. */
  lemma CallMovesOwed(s: State, call: Call, o: int)
    requires Answer(s, call).Ok? && o in s.orders
    ensures var t := After(s, call);
            && o in t.orders
            && Owed(t, o) == Owed(s, o) +
                 match call
                 case Applying(_, order, amount, _, _) => if order == o then -amount else 0
                 case Deducting(order, amount, _) => if order == o then -amount else 0
                 case Restoring(order, amount) => if order == o then amount else 0
                 case Reversing(application, _) =>
                   if s.applications[application].order == o then s.applications[application].amount else 0
                 case Recording(_) => 0
  {
    var t := After(s, call);
    if call.Applying? {
      AppliedWith(s, t, NextId(s.applications), Application(call.payment, call.order, call.amount, call.change, false), o);
    } else if call.Reversing? {
      AppliedWithout(s, t, call.application, o);
    } else {
      SameApplied(s, t, o);
    }
  }

  /** What is left of a payment falls by what is applied of it and handed back as change, and rises by both when that is
      reversed. */
  lemma CallMovesUnapplied(s: State, call: Call, p: int)
    requires Answer(s, call).Ok? && p in s.payments
    ensures var t := After(s, call);
            && p in t.payments && t.payments[p] == s.payments[p]
            && Unapplied(t, p) == Unapplied(s, p) +
                 match call
                 case Applying(payment, _, amount, change, _) => if payment == p then -(amount + change) else 0
                 case Reversing(application, _) =>
                   var a := s.applications[application]; if a.payment == p then a.amount + a.change else 0
                 case _ => 0
  {
    var t := After(s, call);
    if call.Applying? {
      ApplyMovesUnapplied(s, call, p);
    } else if call.Reversing? {
      ReverseMovesUnapplied(s, call, p);
    } else {
      SameUsed(s, t, p);
    }
  }

  lemma ApplyMovesUnapplied(s: State, call: Call, p: int)
    requires call.Applying? && Answer(s, call).Ok? && p in s.payments
    ensures After(s, call).payments == s.payments
    ensures Unapplied(After(s, call), p) == Unapplied(s, p) - if call.payment == p then call.amount + call.change else 0
  {
    UsedWith(s, After(s, call), NextId(s.applications), Application(call.payment, call.order, call.amount, call.change, false), p);
  }

  lemma ReverseMovesUnapplied(s: State, call: Call, p: int)
    requires call.Reversing? && Answer(s, call).Ok? && p in s.payments
    ensures After(s, call).payments == s.payments
    ensures var a := s.applications[call.application];
            Unapplied(After(s, call), p) == Unapplied(s, p) + if a.payment == p then a.amount + a.change else 0
  {
    UsedWithout(s, After(s, call), call.application, p);
  }

  /** The balance is what is owed to the nearest cent, halves up, and nothing once paid beyond. */
  lemma BalanceIsNear(s: State, o: int)
    requires o in s.orders
    ensures Owed(s, o) >= 0 ==> -50 < Balance(s, o) * 100 - Owed(s, o) <= 50
    ensures Owed(s, o) < 0 ==> Balance(s, o) == 0
  {
  }

  /** An application is accepted exactly when the order is completed and neither cancelled nor paid, owes more than a cent
      and no less than is applied, and the payment is the same customer's in the same currency, with enough left for it
      and the change. */
  lemma AppliedExactlyWhen(s: State, payment: int, order: int, amount: int, change: int, now: Moment)
    ensures Apply(s, payment, order, amount, change, now).Ok? <==>
              && payment in s.payments && order in s.orders
              && s.orders[order].completed && !s.orders[order].cancelled && !s.orders[order].paid
              && s.payments[payment].customer == s.orders[order].customer
              && s.payments[payment].currency == s.orders[order].currency
              && Balance(s, order) > 1 && amount <= Balance(s, order) * 100 && amount + change <= Unapplied(s, payment)
  {
  }

  /** An order's zero time changes only when a call pays it that had none, or one from before 1900, and then it is that
      call's time; a call that pays it leaves it with one. */
  lemma DatedWhenPaid(s: State, call: Call, o: int)
    requires Answer(s, call).Ok? && o in s.orders
    ensures var before, after := s.orders[o], After(s, call).orders[o];
            && (after.zeroTime != before.zeroTime ==>
                  && !before.paid && after.paid && (before.zeroTime.None? || before.zeroTime.value.year < 1900)
                  && (call.Applying? || call.Deducting?) && after.zeroTime == Some(call.now))
            && (!before.paid && after.paid && (before.zeroTime.None? || before.zeroTime.value.year < 1900) ==>
                  (call.Applying? || call.Deducting?) && after.zeroTime == Some(call.now))
  {
  }

  // ----- the flag after each call

  /** Settling after a balance fell, and reopening after it rose, keep the flag right. */
  lemma FlagAfterFall(order: SalesOrder, before: int, after: int, now: Moment)
    requires order.paid <==> before <= SETTLED
    requires after <= before
    ensures Settled(order, after, now).paid <==> after <= SETTLED
  {
  }

  lemma FlagAfterRise(order: SalesOrder, before: int, after: int)
    requires order.paid <==> before <= SETTLED
    requires before <= after
    ensures Reopened(order, before, after).paid <==> after <= SETTLED
  {
  }

  lemma ApplyFlag(s: State, payment: int, order: int, amount: int, change: int, now: Moment, o: int)
    requires amount > 0 && FlagRight(s, o) && Apply(s, payment, order, amount, change, now).Ok?
    ensures FlagRight(Apply(s, payment, order, amount, change, now).value, o)
  {
    var t := Apply(s, payment, order, amount, change, now).value;
    var id, a := NextId(s.applications), Application(payment, order, amount, change, false);
    var applied := s.(applications := s.applications[id := a]);
    if o in s.orders {
      AppliedWith(s, applied, id, a, o);
      SameApplied(applied, t, o);
      var owed := s.orders[o].total - s.orders[o].deducted - Applied(s, o);
      if o == order {
        FlagAfterFall(s.orders[o], Balance(s, o), Balance(applied, o), now);
      }
    }
  }

  lemma ReverseFlag(s: State, application: int, reason: bool, o: int)
    requires AmountsOk(s) && FlagRight(s, o) && Reverse(s, application, reason).Ok?
    ensures FlagRight(Reverse(s, application, reason).value, o)
  {
    var t := Reverse(s, application, reason).value;
    var order, amount := s.applications[application].order, s.applications[application].amount;
    var reversed := s.(applications := s.applications[application := s.applications[application].(cancelled := true)]);
    if o in s.orders {
      AppliedWithout(s, reversed, application, o);
      SameApplied(reversed, t, o);
      var owed := s.orders[o].total - s.orders[o].deducted - Applied(s, o);
      if o == order {
        FlagAfterRise(s.orders[o], Balance(s, o), Balance(reversed, o));
      }
    }
  }

  lemma DeductFlag(s: State, order: int, amount: int, now: Moment, o: int)
    requires amount >= 0 && FlagRight(s, o) && Deduct(s, order, amount, now).Ok?
    ensures FlagRight(Deduct(s, order, amount, now).value, o)
  {
    var t := Deduct(s, order, amount, now).value;
    var deducted := s.(orders := s.orders[order := s.orders[order].(deducted := s.orders[order].deducted + amount)]);
    if o in s.orders {
      SameApplied(s, deducted, o);
      SameApplied(s, t, o);
      var owed := s.orders[o].total - s.orders[o].deducted - Applied(s, o);
      if o == order {
        FlagAfterFall(deducted.orders[o], Balance(s, o), Balance(deducted, o), now);
      }
    }
  }

  lemma RestoreFlag(s: State, order: int, amount: int, o: int)
    requires amount >= 0 && FlagRight(s, o) && Restore(s, order, amount).Ok?
    ensures FlagRight(Restore(s, order, amount).value, o)
  {
    var t := Restore(s, order, amount).value;
    var restored := s.(orders := s.orders[order := s.orders[order].(deducted := s.orders[order].deducted - amount)]);
    if o in s.orders {
      SameApplied(s, restored, o);
      SameApplied(s, t, o);
      var owed := s.orders[o].total - s.orders[o].deducted - Applied(s, o);
      if o == order {
        FlagAfterRise(restored.orders[o], Balance(s, o), Balance(restored, o));
      }
    }
  }

  lemma CallFlag(s: State, call: Call, o: int)
    requires Proper(call) && AmountsOk(s) && FlagRight(s, o)
    ensures FlagRight(After(s, call), o)
  {
    if Answer(s, call).Ok? {
      match call
      case Recording(payment) => SameApplied(s, After(s, call), o);
      case Applying(payment, order, amount, change, now) => ApplyFlag(s, payment, order, amount, change, now, o);
      case Reversing(application, reason) => ReverseFlag(s, application, reason, o);
      case Deducting(order, amount, now) => DeductFlag(s, order, amount, now, o);
      case Restoring(order, amount) => RestoreFlag(s, order, amount, o);
    }
  }

  /** After any run, an order that starts unpaid and owing more than a cent, or otherwise flagged right,
      is flagged paid exactly when it owes a cent or less. */
  lemma {:induction false} PaidMeansSettled(s: State, calls: seq<Call>, o: int)
    requires AllProper(calls) && AmountsOk(s) && FlagRight(s, o)
    ensures AmountsOk(Run(s, calls)) && FlagRight(Run(s, calls), o)
  {
    if calls != [] {
      var rest, last := calls[..|calls| - 1], calls[|calls| - 1];
      assert last in calls;
      PaidMeansSettled(s, rest, o);
      CallFlag(Run(s, rest), last, o);
    }
  }

  // ----- the zero time

  predicate Dated(zeroTime: Option<Moment>) {
    zeroTime.Some? && zeroTime.value.year >= 1900
  }

  /** An order is still there after a call, with its zero time if it has one, and gains one when it is
      first flagged paid. */
  ghost predicate KeepsZeroTime(s: State, t: State, o: int) {
    o in s.orders ==>
      && o in t.orders
      && (Dated(s.orders[o].zeroTime) ==> t.orders[o].zeroTime == s.orders[o].zeroTime)
      && (t.orders[o].paid && !s.orders[o].paid ==> Dated(t.orders[o].zeroTime))
      && (!Dated(s.orders[o].zeroTime) && t.orders[o].zeroTime != s.orders[o].zeroTime ==> t.orders[o].paid)
  }

  lemma CallKeepsZeroTime(s: State, call: Call, o: int)
    requires Proper(call)
    ensures KeepsZeroTime(s, After(s, call), o)
  {
  }

  /** A zero time never changes once set, whatever is applied, reversed, refunded or restored after. */
  lemma {:induction false} ZeroTimeStays(s: State, calls: seq<Call>, o: int)
    requires AllProper(calls) && o in s.orders && Dated(s.orders[o].zeroTime)
    ensures o in Run(s, calls).orders && Run(s, calls).orders[o].zeroTime == s.orders[o].zeroTime
  {
    if calls != [] {
      var rest, last := calls[..|calls| - 1], calls[|calls| - 1];
      assert last in calls;
      ZeroTimeStays(s, rest, o);
      CallKeepsZeroTime(Run(s, rest), last, o);
    }
  }

  /** An order that was never paid before has a zero time from when it is first flagged. */
  lemma {:induction false} PaidIsDated(s: State, calls: seq<Call>, o: int)
    requires AllProper(calls) && o in s.orders && (s.orders[o].paid ==> Dated(s.orders[o].zeroTime))
    ensures var t := Run(s, calls);
            o in t.orders && (t.orders[o].paid ==> Dated(t.orders[o].zeroTime))
  {
    if calls != [] {
      var rest, last := calls[..|calls| - 1], calls[|calls| - 1];
      assert last in calls;
      PaidIsDated(s, rest, o);
      CallKeepsZeroTime(Run(s, rest), last, o);
    }
  }

  // ----- what is left of a payment

  ghost predicate WithinAmount(s: State, p: int) {
    p in s.payments && s.payments[p].amount >= 0 ==> 0 <= Unapplied(s, p) <= s.payments[p].amount
  }

  lemma UsedNotNegative(s: State, p: int)
    requires AmountsOk(s)
    ensures Total(UsedColumn(s, p)) >= 0
  {
    var used := UsedColumn(s, p);
    forall a | a in used ensures used[a] >= 0 {
      assert used[a] == s.applications[a].amount + s.applications[a].change;
    }
    TotalNonNegative(used);
  }

  lemma NothingUsed(s: State, p: int)
    requires AmountsOk(s) && p !in s.payments
    ensures Total(UsedColumn(s, p)) == 0
  {
    forall a ensures a !in UsedColumn(s, p) {
    }
    TotalZero(UsedColumn(s, p));
  }

  /** What is used of a payment after a call, and the payment itself. */
  lemma CallUses(s: State, call: Call, p: int)
    requires AmountsOk(s) && Answer(s, call).Ok? && p in s.payments
    ensures var t := After(s, call);
            && p in t.payments && t.payments[p] == s.payments[p]
            && (call.Applying? ==>
                  Total(UsedColumn(t, p)) == Total(UsedColumn(s, p)) + if call.payment == p then call.amount + call.change else 0)
            && (!call.Applying? ==> Total(UsedColumn(t, p)) <= Total(UsedColumn(s, p)))
  {
    if call.Applying? {
      ApplyUses(s, call, p);
    } else if call.Reversing? {
      ReverseUses(s, call, p);
    } else {
      SameUsed(s, After(s, call), p);
    }
  }

  lemma ApplyUses(s: State, call: Call, p: int)
    requires call.Applying? && Answer(s, call).Ok? && p in s.payments
    ensures var t := After(s, call);
            && t.payments == s.payments
            && Total(UsedColumn(t, p)) == Total(UsedColumn(s, p)) + if call.payment == p then call.amount + call.change else 0
  {
    UsedWith(s, After(s, call), NextId(s.applications), Application(call.payment, call.order, call.amount, call.change, false), p);
  }

  lemma ReverseUses(s: State, call: Call, p: int)
    requires AmountsOk(s) && call.Reversing? && Answer(s, call).Ok? && p in s.payments
    ensures var t := After(s, call);
            t.payments == s.payments && Total(UsedColumn(t, p)) <= Total(UsedColumn(s, p))
  {
    UsedWithout(s, After(s, call), call.application, p);
  }

  lemma NewPaymentUnused(s: State, call: Call, p: int)
    requires AmountsOk(s) && p !in s.payments && p in After(s, call).payments
    ensures Total(UsedColumn(After(s, call), p)) == 0
  {
    SameUsed(s, After(s, call), p);
    NothingUsed(s, p);
  }

  lemma ApplyFits(s: State, call: Call)
    requires call.Applying? && Answer(s, call).Ok?
    ensures call.amount + call.change <= Unapplied(s, call.payment)
  {
  }

  lemma CallWithinAmount(s: State, call: Call, p: int)
    requires Proper(call) && AmountsOk(s) && WithinAmount(s, p)
    ensures WithinAmount(After(s, call), p)
  {
    UsedNotNegative(After(s, call), p);
    if p !in s.payments {
      if p in After(s, call).payments {
        NewPaymentUnused(s, call, p);
      }
    } else if Answer(s, call).Ok? {
      CallUses(s, call, p);
      if call.Applying? {
        ApplyFits(s, call);
      }
    }
  }

  /** What is left of a payment that is not negative stays between nothing and its amount. */
  lemma {:induction false} UnappliedStaysWithin(s: State, calls: seq<Call>, p: int)
    requires AllProper(calls) && AmountsOk(s) && WithinAmount(s, p)
    ensures AmountsOk(Run(s, calls)) && WithinAmount(Run(s, calls), p)
  {
    if calls != [] {
      var rest, last := calls[..|calls| - 1], calls[|calls| - 1];
      assert last in calls;
      UnappliedStaysWithin(s, rest, p);
      CallWithinAmount(Run(s, rest), last, p);
    }
  }

  /** Reversing an application gives the payment back what it used, and the order back what it owed. */
  lemma ReverseUndoesApply(s: State, payment: int, order: int, amount: int, change: int, now: Moment, p: int, o: int)
    requires Apply(s, payment, order, amount, change, now).Ok? && o in s.orders
    ensures var t := Apply(s, payment, order, amount, change, now).value;
            var back := Reverse(t, NextId(s.applications), true);
            && back.Ok? && o in back.value.orders
            && Unapplied(back.value, p) == Unapplied(s, p) && Balance(back.value, o) == Balance(s, o)
  {
    var t := Apply(s, payment, order, amount, change, now).value;
    var id, a := NextId(s.applications), Application(payment, order, amount, change, false);
    assert t.applications == s.applications[id := a];
    UsedWith(s, t, id, a, p);
    AppliedWith(s, t, id, a, o);
    var back := Reverse(t, id, true).value;
    assert back.applications == t.applications[id := a.(cancelled := true)];
    UsedWithout(t, back, id, p);
    AppliedWithout(t, back, id, o);
  }

  // ----- rounding of the balance

  lemma OwedAfterApply(s: State, payment: int, order: int, amount: int, change: int, now: Moment)
    requires Apply(s, payment, order, amount, change, now).Ok?
    ensures var t := Apply(s, payment, order, amount, change, now).value;
            order in t.orders && Owed(t, order) == Owed(s, order) - amount
  {
    var t := Apply(s, payment, order, amount, change, now).value;
    AppliedWith(s, t, NextId(s.applications), Application(payment, order, amount, change, false), order);
  }

  /** An accepted application takes the order below zero exactly when it is for more than is owed, and then
      by half a cent at most: its bound is the balance in whole cents. */
  lemma ApplyOverpaysExactly(s: State, payment: int, order: int, amount: int, change: int, now: Moment)
    requires Apply(s, payment, order, amount, change, now).Ok?
    ensures var t := Apply(s, payment, order, amount, change, now).value;
            && order in t.orders && Owed(t, order) >= -CENT / 2
            && (Owed(t, order) < 0 <==> amount > Owed(s, order))
  {
    OwedAfterApply(s, payment, order, amount, change, now);
  }

  /** Open to payment, by a payment with enough left. */
  ghost predicate Payable(s: State, payment: int, order: int) {
    && payment in s.payments && order in s.orders && !s.orders[order].cancelled && s.orders[order].completed
    && s.payments[payment].customer == s.orders[order].customer && s.payments[payment].currency == s.orders[order].currency
    && !s.orders[order].paid && Unapplied(s, payment) >= Balance(s, order) * CENT
  }

  /** Some accepted amount takes the order below zero. */
  ghost predicate CanOverpay(s: State, payment: int, order: int, now: Moment) {
    exists amount :: amount > 0 && Overpays(s, payment, order, amount, now)
  }

  ghost predicate Overpays(s: State, payment: int, order: int, amount: int, now: Moment) {
    var answer := Apply(s, payment, order, amount, 0, now);
    answer.Ok? && order in answer.value.orders && Owed(answer.value, order) < 0
  }

  /** An order can be paid below zero exactly when what it owes rounds up to whole cents. */
  lemma OverpaidExactlyWhenRoundedUp(s: State, payment: int, order: int, now: Moment)
    requires Payable(s, payment, order)
    ensures CanOverpay(s, payment, order, now) <==>
              Owed(s, order) >= SETTLED * CENT + CENT / 2 && Owed(s, order) % CENT >= CENT / 2
  {
    var all := Balance(s, order) * CENT;
    if Owed(s, order) >= SETTLED * CENT + CENT / 2 && Owed(s, order) % CENT >= CENT / 2 {
      assert Apply(s, payment, order, all, 0, now).Ok?;
      OwedAfterApply(s, payment, order, all, 0, now);
      assert Overpays(s, payment, order, all, now);
    }
    forall amount | amount > 0 && Overpays(s, payment, order, amount, now)
      ensures Owed(s, order) >= SETTLED * CENT + CENT / 2 && Owed(s, order) % CENT >= CENT / 2
    {
      OwedAfterApply(s, payment, order, amount, 0, now);
      assert amount <= all;
    }
  }

  /** Two pesos owed, and a payment of ten. */
  const TWO_PESOS := State(
    map[1 := SalesOrder(1, 1, true, false, 20000, 0, false, None)], map[1 := Payment(1, 1, 100000)], map[])

  lemma NothingApplied(s: State)
    requires s.applications == map[]
    ensures Applied(s, 1) == 0 && Total(UsedColumn(s, 1)) == 0
  {
    assert AppliedColumn(s, 1) == map[] && UsedColumn(s, 1) == map[];
  }

  lemma FirstApplied(now: Moment) returns (t: State)
    ensures Apply(TWO_PESOS, 1, 1, 19850, 0, now) == Ok(t)
    ensures Owed(TWO_PESOS, 1) == 20000 && 1 in t.orders && Owed(t, 1) == 150 && Balance(t, 1) == 2
    ensures Payable(t, 1, 1) && Unapplied(t, 1) == 80150
  {
    NothingApplied(TWO_PESOS);
    assert Apply(TWO_PESOS, 1, 1, 19850, 0, now).Ok?;
    t := Apply(TWO_PESOS, 1, 1, 19850, 0, now).value;
    OwedAfterApply(TWO_PESOS, 1, 1, 19850, 0, now);
    UsedWith(TWO_PESOS, t, NextId(TWO_PESOS.applications), Application(1, 1, 19850, 0, false), 1);
    assert Owed(t, 1) == 150;
  }

  /** An order of two pesos takes an application of 1.985 and then one of 0.02, and is half a cent below zero. */
  lemma HalfACentOver(now: Moment)
    ensures var first := Apply(TWO_PESOS, 1, 1, 19850, 0, now);
            && first.Ok?
            && var second := Apply(first.value, 1, 1, 200, 0, now);
               second.Ok? && 1 in second.value.orders && Owed(second.value, 1) == -50
  {
    var t := FirstApplied(now);
    assert Apply(t, 1, 1, 200, 0, now).Ok?;
    OwedAfterApply(t, 1, 1, 200, 0, now);
  }

  // ----- the payment desk

  class Desk {
    var orders: map<int, SalesOrder>
    var payments: map<int, Payment>
    var applications: map<int, Application>

    constructor (s: State)
      ensures Now() == s
    {
      orders, payments, applications := s.orders, s.payments, s.applications;
    }

    function Now(): State
      reads this
    {
      State(orders, payments, applications)
    }

    ghost predicate Became(before: State, answer: Outcome, refusal: Option<Refusal>)
      reads this
    {
      match answer
      case Ok(after) => refusal == None && Now() == after
      case Refused(why) => refusal == Some(why) && Now() == before
    }

    method BalanceOf(order: int) returns (balance: int)
      requires order in orders
      ensures balance == Balance(Now(), order)
    {
      var applied := Sum(AppliedColumn(Now(), order));
      balance := InCents(orders[order].total - orders[order].deducted - applied);
    }

    method UnappliedOf(payment: int) returns (unapplied: int)
      ensures unapplied == Unapplied(Now(), payment)
    {
      if payment !in payments {
        return 0;
      }
      var used := Sum(UsedColumn(Now(), payment));
      unapplied := payments[payment].amount - used;
    }

    /** Flag the order paid if its balance is settled; never clear the flag. */
    method Settle(order: int, balance: int, now: Moment)
      requires order in orders
      modifies this`orders
      ensures orders == old(orders)[order := Settled(old(orders)[order], balance, now)]
    {
      if orders[order].paid || balance > SETTLED {
        assert old(orders)[order := old(orders)[order]] == old(orders);
        return;
      }
      orders := orders[order := orders[order].(paid := true)];
      if orders[order].zeroTime.None? || orders[order].zeroTime.value.year < 1900 {
        orders := orders[order := orders[order].(zeroTime := Some(now))];
      }
    }

    method Reopen(order: int, before: int, after: int)
      requires order in orders
      modifies this`orders
      ensures orders == old(orders)[order := Reopened(old(orders)[order], before, after)]
    {
      assert old(orders)[order := old(orders)[order]] == old(orders);
      if before <= SETTLED < after {
        orders := orders[order := orders[order].(paid := false)];
      }
    }

    method ApplyPayment(payment: int, order: int, amount: int, change: int, now: Moment) returns (refusal: Option<Refusal>)
      modifies this`orders, this`applications
      ensures Became(old(Now()), Apply(old(Now()), payment, order, amount, change, now), refusal)
    {
      if payment !in payments || order !in orders {
        return Some(NotFound);
      }
      var balance := BalanceOf(order);
      if orders[order].cancelled {
        return Some(OrderCancelled);
      }
      if !orders[order].completed {
        return Some(OrderNotCompleted);
      }
      if payments[payment].customer != orders[order].customer {
        return Some(CustomerMismatch);
      }
      if payments[payment].currency != orders[order].currency {
        return Some(CurrencyMismatch);
      }
      if orders[order].paid || balance <= SETTLED {
        return Some(OrderSettled);
      }
      var unapplied := UnappliedOf(payment);
      if amount + change > unapplied {
        return Some(ExceedsUnapplied);
      }
      if amount > balance * CENT {
        return Some(ExceedsBalance);
      }
      applications := applications[NextId(applications) := Application(payment, order, amount, change, false)];
      var left := BalanceOf(order);
      Settle(order, left, now);
      return None;
    }

    method ReverseApplication(application: int, reason: bool) returns (refusal: Option<Refusal>)
      modifies this`orders, this`applications
      ensures Became(old(Now()), Reverse(old(Now()), application, reason), refusal)
    {
      if application !in applications {
        return Some(NotFound);
      }
      if applications[application].cancelled {
        return Some(AlreadyReversed);
      }
      if !reason {
        return Some(ReasonRequired);
      }
      var order := applications[application].order;
      var before := 0;
      if order in orders {
        before := BalanceOf(order);
      }
      applications := applications[application := applications[application].(cancelled := true)];
      if order in orders {
        var after := BalanceOf(order);
        Reopen(order, before, after);
      }
      return None;
    }
  }
}
