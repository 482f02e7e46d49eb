/**
 * Recurring-payment invoices: the record `create_invoice` stores, the
 * catch-up that emits one invoice per elapsed billing cycle, the last
 * billing cycle read back from the stored invoices, and the current and
 * outstanding balances summed over them.
 */
module Invoices {
  import opened Dates
  import opened Billing

  const InvoiceTitle: string := "Recurring Payment Invoice"

  /** The fields `create_invoice` sets on the general invoice (amounts may be null). */
  datatype Invoice = Invoice(
    title: string,
    objectId: int,
    dueDate: Time,
    shipDate: Time,
    total: Option<Cents>,
    subtotal: Option<Cents>,
    balance: Option<Cents>,
    status: bool,
    estimate: bool,
    statusDetail: string)

  /** A row of the recurring-payment invoice table. */
  datatype RecurringPaymentInvoice = RecurringPaymentInvoice(
    recurringPayment: int,
    invoice: Invoice,
    billingCycleStartDt: Time,
    billingCycleEndDt: Time,
    billingDt: Time)

  /** The amount billed: the trial amount during the trial, the payment amount otherwise. */
  function InvoiceAmount(t: Terms, now: Time): (amount: Option<Cents>)
    ensures WithinTrial(t, now) ==> amount == t.trialAmount
    ensures !WithinTrial(t, now) ==> amount == Some(t.paymentAmount)
  {
    if WithinTrial(t, now) then t.trialAmount else Some(t.paymentAmount)
  }

  /** The invoice row `create_invoice` stores for cycle `c` billed on `billingDt`. */
  function InvoiceRecord(rpId: int, t: Terms, c: Cycle, billingDt: Time, now: Time): RecurringPaymentInvoice
  {
    var amount := InvoiceAmount(t, now);
    var inv := Invoice(InvoiceTitle, rpId, billingDt, billingDt, amount, amount, amount, true, true, "estimate");
    RecurringPaymentInvoice(rpId, inv, c.start, c.end, billingDt)
  }

  /** The stored row records the cycle and billing date, and bills one amount throughout. */
  lemma InvoiceRecordFields(rpId: int, t: Terms, c: Cycle, billingDt: Time, now: Time)
    ensures var r := InvoiceRecord(rpId, t, c, billingDt, now);
      && r.recurringPayment == rpId && r.invoice.objectId == rpId
      && r.billingCycleStartDt == c.start && r.billingCycleEndDt == c.end && r.billingDt == billingDt
      && r.invoice.dueDate == billingDt && r.invoice.shipDate == billingDt
      && r.invoice.total == r.invoice.subtotal == r.invoice.balance == InvoiceAmount(t, now)
      && r.invoice.estimate && r.invoice.status
  {
  }

  /** The cycle of a stored row. */
  function CycleOf(r: RecurringPaymentInvoice): Cycle
  {
    Cycle(r.billingCycleStartDt, r.billingCycleEndDt)
  }

  // ---------------------------------------------------------------------------
  // Invoice catch-up

  /** A measure that shrinks as the cycles generated so far approach `now`. */
  function Gap(last: Option<Cycle>, now: Time): nat
  {
    if last.Some? && last.value.end <= now then now - last.value.end + 1 else 0
  }

  /**
   * The invoices `check_and_generate_invoices` emits after `last`: one per
   * cycle while that cycle's end is not after `now`. Each invoice is created
   * after the trial window has been looked at, so its terms have the trial
   * end clamped.
   */
  function Catchup(cal: Calendar, rpId: int, t: Terms, last: Option<Cycle>, now: Time): seq<RecurringPaymentInvoice>
    requires ValidCalendar(cal) && t.billingFrequency >= 0
    decreases last.None?, Gap(last, now)
  {
    var c := NextCycle(cal, t, last, now);
    if c.end <= now then
      var t' := ClampTrial(t, now);
      CycleEndAdvances(cal, t, c.start);
      [InvoiceRecord(rpId, t', c, DueDate(t', c), now)] + Catchup(cal, rpId, t', Some(c), now)
    else
      []
  }

  /** The last cycle after generating `gen` from `last`. */
  function LastGenerated(gen: seq<RecurringPaymentInvoice>, last: Option<Cycle>): Option<Cycle>
  {
    if gen == [] then last else Some(CycleOf(gen[|gen| - 1]))
  }

  /**
   * Every emitted invoice belongs to the recurring payment, covers a cycle
   * that has ended by `now`, is billed `num_days` days after the cycle end,
   * and bills the amount the trial rule picks.
   */
  lemma {:induction false} CatchupInvoicesDue(cal: Calendar, rpId: int, t: Terms, last: Option<Cycle>, now: Time)
    requires ValidCalendar(cal) && t.billingFrequency >= 0
    ensures forall r <- Catchup(cal, rpId, t, last, now) ::
              && r.recurringPayment == rpId
              && r.billingCycleEndDt <= now
              && r.billingDt == r.billingCycleEndDt + t.numDays * Day
              && r.invoice.balance == InvoiceAmount(t, now)
    decreases last.None?, Gap(last, now)
  {
    var c := NextCycle(cal, t, last, now);
    if c.end <= now {
      var t' := ClampTrial(t, now);
      CycleEndAdvances(cal, t, c.start);
      ClampTrialIdempotent(t, now);
      CatchupInvoicesDue(cal, rpId, t', Some(c), now);
    }
  }

  /**
   * The emitted invoices cover consecutive cycles: the first is the cycle
   * after `last`, and each later one starts one day after the previous
   * one's end and spans one cycle length.
   */
  lemma {:induction false} CatchupConsecutive(cal: Calendar, rpId: int, t: Terms, last: Option<Cycle>, now: Time)
    requires ValidCalendar(cal) && t.billingFrequency >= 0
    ensures var gen := Catchup(cal, rpId, t, last, now);
      && (gen != [] ==> CycleOf(gen[0]) == NextCycle(cal, t, last, now))
      && (forall i :: 0 < i < |gen| ==>
            && gen[i].billingCycleStartDt == gen[i - 1].billingCycleEndDt + Day
            && gen[i].billingCycleEndDt == CycleEnd(cal, t, gen[i].billingCycleStartDt))
    decreases last.None?, Gap(last, now)
  {
    var c := NextCycle(cal, t, last, now);
    if c.end <= now {
      var t' := ClampTrial(t, now);
      CycleEndAdvances(cal, t, c.start);
      CatchupConsecutive(cal, rpId, t', Some(c), now);
      var gen := Catchup(cal, rpId, t, last, now);
      var rest := Catchup(cal, rpId, t', Some(c), now);
      assert gen == [InvoiceRecord(rpId, t', c, DueDate(t', c), now)] + rest;
      forall i | 0 < i < |gen|
        ensures gen[i].billingCycleStartDt == gen[i - 1].billingCycleEndDt + Day
        ensures gen[i].billingCycleEndDt == CycleEnd(cal, t, gen[i].billingCycleStartDt)
      {
        assert gen[i] == rest[i - 1];
        if i == 1 {
          assert CycleOf(rest[0]) == NextCycle(cal, t', Some(c), now);
        }
      }
    }
  }

  /** The catch-up stops at the first cycle that has not ended by `now`. */
  lemma {:induction false} CatchupStops(cal: Calendar, rpId: int, t: Terms, last: Option<Cycle>, now: Time)
    requires ValidCalendar(cal) && t.billingFrequency >= 0
    ensures var gen := Catchup(cal, rpId, t, last, now);
      NextCycle(cal, t, LastGenerated(gen, last), now).end > now
    decreases last.None?, Gap(last, now)
  {
    var c := NextCycle(cal, t, last, now);
    if c.end <= now {
      var t' := ClampTrial(t, now);
      CycleEndAdvances(cal, t, c.start);
      CatchupStops(cal, rpId, t', Some(c), now);
      var gen := Catchup(cal, rpId, t, last, now);
      var rest := Catchup(cal, rpId, t', Some(c), now);
      assert gen == [InvoiceRecord(rpId, t', c, DueDate(t', c), now)] + rest;
      assert LastGenerated(gen, last) == LastGenerated(rest, Some(c));
      NextCycleAfterIgnoresTrial(cal, t, t', LastGenerated(rest, Some(c)).value, now, now);
    }
  }

  /** Nothing is emitted exactly when the first cycle after `last` has not ended by `now`. */
  lemma CatchupEmptyIff(cal: Calendar, rpId: int, t: Terms, last: Option<Cycle>, now: Time)
    requires ValidCalendar(cal) && t.billingFrequency >= 0
    ensures Catchup(cal, rpId, t, last, now) == [] <==> NextCycle(cal, t, last, now).end > now
  {
  }

  // ---------------------------------------------------------------------------
  // Last billing cycle

  /** The row of `rpId` with the greatest cycle start (the earliest stored among ties). */
  function LatestInvoice(rows: seq<RecurringPaymentInvoice>, rpId: int): (r: Option<RecurringPaymentInvoice>)
    ensures r.None? <==> forall x <- rows :: x.recurringPayment != rpId
    ensures r.Some? ==> r.value in rows && r.value.recurringPayment == rpId
    ensures r.Some? ==> forall x <- rows :: x.recurringPayment == rpId ==> x.billingCycleStartDt <= r.value.billingCycleStartDt
  {
    if rows == [] then None
    else
      var rest := LatestInvoice(rows[1..], rpId);
      assert forall x <- rows :: x == rows[0] || x in rows[1..];
      if rows[0].recurringPayment == rpId && (rest.None? || rest.value.billingCycleStartDt <= rows[0].billingCycleStartDt)
      then Some(rows[0])
      else rest
  }

  /**
   * The last billing cycle: that of the stored row with the greatest cycle
   * start, provided the start is not before the billing start.
   */
  function LastBillingCycle(rows: seq<RecurringPaymentInvoice>, rpId: int, billingStartDt: Time): Option<Cycle>
  {
    var latest := LatestInvoice(rows, rpId);
    if latest.Some? && billingStartDt <= latest.value.billingCycleStartDt then Some(CycleOf(latest.value)) else None
  }

  /**
   * There is a last billing cycle exactly when some row of `rpId` starts at
   * or after the billing start; it is then a stored cycle whose start no
   * other row of `rpId` exceeds.
   */
  lemma LastBillingCycleSpec(rows: seq<RecurringPaymentInvoice>, rpId: int, billingStartDt: Time)
    ensures var c := LastBillingCycle(rows, rpId, billingStartDt);
      && (c.Some? <==> exists x <- rows :: x.recurringPayment == rpId && billingStartDt <= x.billingCycleStartDt)
      && (c.Some? ==> billingStartDt <= c.value.start)
      && (c.Some? ==> exists x <- rows :: x.recurringPayment == rpId && CycleOf(x) == c.value)
      && (c.Some? ==> forall x <- rows :: x.recurringPayment == rpId ==> x.billingCycleStartDt <= c.value.start)
  {
    var latest := LatestInvoice(rows, rpId);
    if latest.Some? {
      assert latest.value in rows;
    }
  }

  // ---------------------------------------------------------------------------
  // Balances

  /** A row still owes money: its invoice has a positive balance. */
  predicate Owing(r: RecurringPaymentInvoice)
  {
    r.invoice.balance.Some? && r.invoice.balance.value > 0
  }

  /** The filters of the two balance queries. */
  datatype BalanceQuery = CurrentCycle(now: Time) | PastDue(now: Time)

  /** Whether a row is summed by a balance query. */
  predicate Selects(q: BalanceQuery, r: RecurringPaymentInvoice)
  {
    Owing(r) &&
    match q
    case CurrentCycle(now) => r.billingCycleStartDt <= now && now <= r.billingCycleEndDt
    case PastDue(now) => r.billingDt <= now
  }

  /** The SQL sum of the selected balances: null when no row is selected. */
  function SumBalance(rows: seq<RecurringPaymentInvoice>, q: BalanceQuery): (s: Option<Cents>)
    ensures s.None? <==> forall r <- rows :: !Selects(q, r)
    ensures s.Some? ==> s.value > 0
  {
    if rows == [] then None
    else
      var rest := SumBalance(rows[1..], q);
      assert forall x <- rows :: x == rows[0] || x in rows[1..];
      if !Selects(q, rows[0]) then rest
      else if rest.None? then Some(rows[0].invoice.balance.value)
      else Some(rows[0].invoice.balance.value + rest.value)
  }

  /** A null (or zero) aggregate reads as 0. */
  function OrZero(s: Option<Cents>): Cents
  {
    if s.None? || s.value == 0 then 0 else s.value
  }

  /** The current balance: positive balances of rows whose cycle contains `now`, over all rows. */
  function CurrentBalance(rows: seq<RecurringPaymentInvoice>, now: Time): Cents
  {
    OrZero(SumBalance(rows, CurrentCycle(now)))
  }

  /** The outstanding balance: positive balances of rows billed at or before `now`, over all rows. */
  function OutstandingBalance(rows: seq<RecurringPaymentInvoice>, now: Time): Cents
  {
    OrZero(SumBalance(rows, PastDue(now)))
  }

  /** An independent reading of a balance: the plain sum, row by row, of what each selected row owes. */
  function Owed(rows: seq<RecurringPaymentInvoice>, q: BalanceQuery): Cents
  {
    if rows == [] then 0
    else (if Selects(q, rows[0]) then rows[0].invoice.balance.value else 0) + Owed(rows[1..], q)
  }

  /** A balance query's aggregate read as a number is the plain sum of the selected balances. */
  lemma {:induction false} SumBalanceIsOwed(rows: seq<RecurringPaymentInvoice>, q: BalanceQuery)
    ensures OrZero(SumBalance(rows, q)) == Owed(rows, q)
  {
    if rows != [] {
      SumBalanceIsOwed(rows[1..], q);
    }
  }

  /** Owed sums over the concatenation of two tables. */
  lemma {:induction false} OwedAppend(a: seq<RecurringPaymentInvoice>, b: seq<RecurringPaymentInvoice>, q: BalanceQuery)
    ensures Owed(a + b, q) == Owed(a, q) + Owed(b, q)
  {
    if a == [] {
      assert a + b == b;
    } else {
      assert (a + b)[1..] == a[1..] + b;
      OwedAppend(a[1..], b, q);
    }
  }

  /** Each selected row's balance is part of the sum. */
  lemma {:induction false} OwedCovers(rows: seq<RecurringPaymentInvoice>, q: BalanceQuery, i: nat)
    requires i < |rows| && Selects(q, rows[i])
    ensures rows[i].invoice.balance.value <= Owed(rows, q)
  {
    if i > 0 {
      OwedCovers(rows[1..], q, i - 1);
      OwedNonNegative(rows[1..], q);
    } else {
      OwedNonNegative(rows[1..], q);
    }
  }

  lemma {:induction false} OwedNonNegative(rows: seq<RecurringPaymentInvoice>, q: BalanceQuery)
    ensures Owed(rows, q) >= 0
  {
    if rows != [] {
      OwedNonNegative(rows[1..], q);
    }
  }

  /**
   * The current balance is 0 exactly when no owing row's cycle contains
   * `now`, and is at least the balance of each one that does.
   */
  lemma CurrentBalanceSpec(rows: seq<RecurringPaymentInvoice>, now: Time)
    ensures CurrentBalance(rows, now) == 0 <==>
              forall r <- rows :: !(Owing(r) && r.billingCycleStartDt <= now <= r.billingCycleEndDt)
    ensures forall i :: 0 <= i < |rows| && Owing(rows[i]) && rows[i].billingCycleStartDt <= now <= rows[i].billingCycleEndDt ==>
              rows[i].invoice.balance.value <= CurrentBalance(rows, now)
  {
    SumBalanceIsOwed(rows, CurrentCycle(now));
    forall i | 0 <= i < |rows| && Selects(CurrentCycle(now), rows[i])
      ensures rows[i].invoice.balance.value <= CurrentBalance(rows, now)
    {
      OwedCovers(rows, CurrentCycle(now), i);
    }
  }

  /**
   * The outstanding balance is 0 exactly when no owing row is billed at or
   * before `now`, and is at least the balance of each one that is.
   */
  lemma OutstandingBalanceSpec(rows: seq<RecurringPaymentInvoice>, now: Time)
    ensures OutstandingBalance(rows, now) == 0 <==> forall r <- rows :: !(Owing(r) && r.billingDt <= now)
    ensures forall i :: 0 <= i < |rows| && Owing(rows[i]) && rows[i].billingDt <= now ==>
              rows[i].invoice.balance.value <= OutstandingBalance(rows, now)
  {
    SumBalanceIsOwed(rows, PastDue(now));
    forall i | 0 <= i < |rows| && Selects(PastDue(now), rows[i])
      ensures rows[i].invoice.balance.value <= OutstandingBalance(rows, now)
    {
      OwedCovers(rows, PastDue(now), i);
    }
  }

  /** Storing one more row adds its balance to a query's sum when the query selects it. */
  lemma BalanceAfterInsert(rows: seq<RecurringPaymentInvoice>, r: RecurringPaymentInvoice, q: BalanceQuery)
    ensures OrZero(SumBalance(rows + [r], q)) ==
              OrZero(SumBalance(rows, q)) + (if Selects(q, r) then r.invoice.balance.value else 0)
  {
    SumBalanceIsOwed(rows + [r], q);
    SumBalanceIsOwed(rows, q);
    OwedAppend(rows, [r], q);
    assert [r][1..] == [];
  }

  // ---------------------------------------------------------------------------
  // Balances restricted to one recurring payment

  /** The rows of one recurring payment. */
  function RowsOf(rows: seq<RecurringPaymentInvoice>, rpId: int): (r: seq<RecurringPaymentInvoice>)
    ensures forall x <- r :: x in rows && x.recurringPayment == rpId
    ensures forall x <- rows :: x.recurringPayment == rpId ==> x in r
  {
    if rows == [] then []
    else
      assert forall x <- rows :: x == rows[0] || x in rows[1..];
      (if rows[0].recurringPayment == rpId then [rows[0]] else []) + RowsOf(rows[1..], rpId)
  }

  /** The current balance of one recurring payment. */
  function CurrentBalanceOf(rows: seq<RecurringPaymentInvoice>, rpId: int, now: Time): Cents
  {
    CurrentBalance(RowsOf(rows, rpId), now)
  }

  /** The outstanding balance of one recurring payment. */
  function OutstandingBalanceOf(rows: seq<RecurringPaymentInvoice>, rpId: int, now: Time): Cents
  {
    OutstandingBalance(RowsOf(rows, rpId), now)
  }

  lemma {:induction false} RowsOfAppend(rows: seq<RecurringPaymentInvoice>, r: RecurringPaymentInvoice, rpId: int)
    ensures RowsOf(rows + [r], rpId) == RowsOf(rows, rpId) + (if r.recurringPayment == rpId then [r] else [])
  {
    if rows == [] {
      assert [] + [r] == [r];
      assert [r][1..] == [];
    } else {
      assert (rows + [r])[1..] == rows[1..] + [r];
      RowsOfAppend(rows[1..], r, rpId);
    }
  }

  /**
   * A recurring payment's own balances are untouched by invoices of other
   * recurring payments, and grow by its new invoice's balance when the query
   * selects that invoice.
   */
  lemma BalanceOfAfterInsert(rows: seq<RecurringPaymentInvoice>, r: RecurringPaymentInvoice, rpId: int, now: Time)
    ensures r.recurringPayment != rpId ==>
              && CurrentBalanceOf(rows + [r], rpId, now) == CurrentBalanceOf(rows, rpId, now)
              && OutstandingBalanceOf(rows + [r], rpId, now) == OutstandingBalanceOf(rows, rpId, now)
    ensures r.recurringPayment == rpId ==>
              && CurrentBalanceOf(rows + [r], rpId, now) ==
                 CurrentBalanceOf(rows, rpId, now) + (if Selects(CurrentCycle(now), r) then r.invoice.balance.value else 0)
              && OutstandingBalanceOf(rows + [r], rpId, now) ==
                 OutstandingBalanceOf(rows, rpId, now) + (if Selects(PastDue(now), r) then r.invoice.balance.value else 0)
  {
    RowsOfAppend(rows, r, rpId);
    if r.recurringPayment != rpId {
      assert RowsOf(rows, rpId) + [] == RowsOf(rows, rpId);
    } else {
      BalanceAfterInsert(RowsOf(rows, rpId), r, CurrentCycle(now));
      BalanceAfterInsert(RowsOf(rows, rpId), r, PastDue(now));
    }
  }

  /**
   * The balance queries as written sum over every recurring payment's
   * invoices: with one owing invoice of recurring payment 1 and one of
   * recurring payment 2, both in their current cycle and past due, the
   * balances reported for payment 1 include payment 2's invoice.
   */
  lemma BalancesCountOtherPayments()
    ensures var now := 10 * Day;
      var inv := Invoice(InvoiceTitle, 0, now, now, Some(500), Some(500), Some(500), true, true, "estimate");
      var rows := [RecurringPaymentInvoice(1, inv.(objectId := 1), 0, 20 * Day, 5 * Day),
                   RecurringPaymentInvoice(2, inv.(objectId := 2), 0, 20 * Day, 5 * Day)];
      && CurrentBalance(rows, now) == 1000 && CurrentBalanceOf(rows, 1, now) == 500
      && OutstandingBalance(rows, now) == 1000 && OutstandingBalanceOf(rows, 1, now) == 500
  {
    var now := 10 * Day;
    var inv := Invoice(InvoiceTitle, 0, now, now, Some(500), Some(500), Some(500), true, true, "estimate");
    var a := RecurringPaymentInvoice(1, inv.(objectId := 1), 0, 20 * Day, 5 * Day);
    var b := RecurringPaymentInvoice(2, inv.(objectId := 2), 0, 20 * Day, 5 * Day);
    var rows := [a, b];
    assert rows[1..] == [b];
    assert [b][1..] == [];
    assert RowsOf([b], 1) == [];
    assert RowsOf(rows, 1) == [a];
    assert [a][1..] == [];
    assert SumBalance([b], CurrentCycle(now)) == Some(500);
    assert SumBalance([b], PastDue(now)) == Some(500);
  }
}
