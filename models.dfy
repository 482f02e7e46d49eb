/**
 * The recurring payment as a stored object, and the tables it writes to.
 *
 * Most fields of a recurring payment are only read by the billing engine and
 * are constants here; the trial end and the next billing date are the two the
 * engine overwrites. Each method is specified by the pure functions of
 * `Billing`, `Invoices` and `PaymentProfiles`.
 */
module Models {
  import opened Dates
  import opened Billing
  import opened Invoices
  import opened PaymentProfiles

  /** The recurring-payment invoice table and the payment-profile table. */
  class Database {
    var rpInvoices: seq<RecurringPaymentInvoice>
    var paymentProfiles: seq<PaymentProfile>

    constructor ()
      ensures rpInvoices == [] && paymentProfiles == []
    {
      rpInvoices := [];
      paymentProfiles := [];
    }
  }

  class RecurringPayment {
    const id: int
    const customerProfileId: string
    /** The username of the customer, recorded as creator and owner of imported profiles. */
    const username: string
    const billingPeriod: string
    const billingFrequency: int
    const billingStartDt: Time
    const numDays: int
    const paymentAmount: Cents
    const hasTrialPeriod: bool
    const trialPeriodStartDt: Option<Time>
    var trialPeriodEndDt: Option<Time>
    const trialAmount: Option<Cents>
    var nextBillingDt: Option<Time>

    /** The billing terms as a value. */
    function BillingTerms(): Terms
      reads this
    {
      Terms(billingPeriod, billingFrequency, billingStartDt, numDays, paymentAmount,
            hasTrialPeriod, trialPeriodStartDt, trialPeriodEndDt, trialAmount)
    }

    constructor (id: int, customerProfileId: string, username: string, t: Terms)
      ensures this.id == id && this.customerProfileId == customerProfileId && this.username == username
      ensures BillingTerms() == t && nextBillingDt == None
    {
      this.id := id;
      this.customerProfileId := customerProfileId;
      this.username := username;
      billingPeriod := t.billingPeriod;
      billingFrequency := t.billingFrequency;
      billingStartDt := t.billingStartDt;
      numDays := t.numDays;
      paymentAmount := t.paymentAmount;
      hasTrialPeriod := t.hasTrialPeriod;
      trialPeriodStartDt := t.trialPeriodStartDt;
      trialPeriodEndDt := t.trialPeriodEndDt;
      trialAmount := t.trialAmount;
      nextBillingDt := None;
    }

    /**
     * Whether `now` is inside the trial window; looking clamps a missing or
     * late trial end to the billing start, and changes nothing else.
     */
    method WithinTrialPeriod(now: Time) returns (within: bool)
      modifies this`trialPeriodEndDt
      ensures within == WithinTrial(old(BillingTerms()), now)
      ensures BillingTerms() == ClampTrial(old(BillingTerms()), now)
      ensures TrialChecked(old(BillingTerms()), now) ==> trialPeriodEndDt.Some? && trialPeriodEndDt.value <= billingStartDt
    {
      if now >= billingStartDt {
        return false;
      }
      if hasTrialPeriod && trialPeriodStartDt.Some? {
        if trialPeriodEndDt.None? || trialPeriodEndDt.value > billingStartDt {
          trialPeriodEndDt := Some(billingStartDt);
        }
        return now <= trialPeriodEndDt.value;
      }
      return false;
    }

    /** The billing cycle after `last` (or the first one, when there is none). */
    method GetNextBillingCycle(cal: Calendar, last: Option<Cycle>, now: Time) returns (c: Cycle)
      modifies this`trialPeriodEndDt
      ensures c == NextCycle(cal, old(BillingTerms()), last, now)
      ensures BillingTerms() == TermsAfterNextCycle(old(BillingTerms()), last, now)
    {
      var step := CycleLength(billingPeriod, billingFrequency);
      if last.None? {
        var within := WithinTrialPeriod(now);
        if within {
          if trialPeriodEndDt.None? || trialPeriodEndDt.value > billingStartDt {
            // The second clamp never fires: WithinTrialPeriod has clamped already.
            assert false;
          }
          return Cycle(trialPeriodStartDt.value, trialPeriodEndDt.value);
        }
        var start := billingStartDt;
        c := Cycle(start, Shift(cal, start, step));
      } else {
        var start := last.value.end + Day;
        c := Cycle(start, Shift(cal, start, step));
      }
    }

    /**
     * Records an invoice for cycle `c` billed on `billingDt`, charging the
     * trial amount during the trial and the payment amount otherwise, and
     * makes `billingDt` the next billing date.
     */
    method CreateInvoice(db: Database, c: Cycle, billingDt: Time, now: Time) returns (rec: RecurringPaymentInvoice)
      modifies this`trialPeriodEndDt, this`nextBillingDt, db`rpInvoices
      ensures BillingTerms() == ClampTrial(old(BillingTerms()), now)
      ensures rec == InvoiceRecord(id, BillingTerms(), c, billingDt, now)
      ensures rec.invoice.balance == InvoiceAmount(old(BillingTerms()), now)
      ensures nextBillingDt == Some(billingDt)
      ensures db.rpInvoices == old(db.rpInvoices) + [rec]
    {
      ClampTrialIdempotent(BillingTerms(), now);
      var within := WithinTrialPeriod(now);
      var amount := if within then trialAmount else Some(paymentAmount);
      nextBillingDt := Some(billingDt);
      var inv := Invoice(InvoiceTitle, id, billingDt, billingDt, amount, amount, amount, true, true, "estimate");
      rec := RecurringPaymentInvoice(id, inv, c.start, c.end, billingDt);
      db.rpInvoices := db.rpInvoices + [rec];
    }

    /**
     * Emits an invoice for every consecutive cycle after `last` (or after the
     * last stored cycle, when `last` is absent) that has ended by `now`.
     */
    method CheckAndGenerateInvoices(cal: Calendar, db: Database, now: Time, last: Option<Cycle>)
      requires ValidCalendar(cal) && billingFrequency >= 0
      modifies this`trialPeriodEndDt, this`nextBillingDt, db`rpInvoices
      ensures var from := if last.None? then LastBillingCycle(old(db.rpInvoices), id, billingStartDt) else last;
        var gen := Catchup(cal, id, old(BillingTerms()), from, now);
        && db.rpInvoices == old(db.rpInvoices) + gen
        && BillingTerms() == (if from.None? || gen != [] then ClampTrial(old(BillingTerms()), now) else old(BillingTerms()))
        && nextBillingDt == (if gen == [] then old(nextBillingDt) else Some(gen[|gen| - 1].billingDt))
      decreases last.None?, Gap(last, now)
    {
      ghost var t := BillingTerms();
      var from := last;
      if last.None? {
        from := LastBillingCycle(db.rpInvoices, id, billingStartDt);
      }
      var next := GetNextBillingCycle(cal, from, now);
      var billingDt := DueDate(BillingTerms(), next);
      if next.end <= now {
        ClampTrialIdempotent(t, now);
        CycleEndAdvances(cal, t, next.start);
        var rec := CreateInvoice(db, next, billingDt, now);
        ghost var t' := BillingTerms();
        assert t' == ClampTrial(t, now);
        CheckAndGenerateInvoices(cal, db, now, Some(next));
        ghost var rest := Catchup(cal, id, t', Some(next), now);
        assert Catchup(cal, id, t, from, now) == [rec] + rest;
      }
    }

    /**
     * Stores the payment profiles of a successful gateway lookup whose ids
     * are not stored yet; a failed lookup stores nothing.
     */
    method PopulatePaymentProfile(db: Database, response: CustomerProfileResponse)
      modifies db`paymentProfiles
      ensures db.paymentProfiles == Populate(old(db.paymentProfiles), id, username, response)
    {
      if response.success {
        var profiles := ProfileList(response.paymentProfiles);
        var i := 0;
        while i < |profiles|
          invariant 0 <= i <= |profiles|
          invariant db.paymentProfiles == Import(old(db.paymentProfiles), id, username, profiles[..i])
        {
          var p := profiles[i];
          assert profiles[..i + 1][..i] == profiles[..i];
          if !Stored(db.paymentProfiles, p.customerPaymentProfileId) {
            db.paymentProfiles := db.paymentProfiles + [NewRow(id, username, p)];
          }
          i := i + 1;
        }
        assert profiles[..|profiles|] == profiles;
      }
    }
  }
}
