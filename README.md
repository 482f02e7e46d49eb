# Recurring-payments billing engine

A Dafny model of the billing-cycle engine of Tendenci's recurring-payments
module (`apps/recurring_payments/models.py`). A recurring payment bills a
customer once per billing cycle. The cycle length comes from the billing
period (`year`, `month`, `week`, `day`) and frequency. An optional trial
window precedes the billing start. When the engine runs at a given moment
`now`, it catches up: it creates one invoice for every consecutive cycle that
has ended by `now`. Each invoice is billed `num_days` days after its cycle
ends. The module also reads the last billing cycle back from the stored
invoices, sums current and outstanding balances over them, imports
payment-profile ids from the payment gateway's customer-profile response,
and records the outcome of charging an invoice.

Layout:

- `dates.dfy` (module `Dates`): datetimes as whole seconds, one day as 86400
  seconds, relative-delta steps, and a `Calendar` value for month and year
  arithmetic.
- `billing.dfy` (module `Billing`): the billing terms, the cycle length, the
  trial window, the next cycle and the due date, all as pure functions.
- `invoices.dfy` (module `Invoices`): the invoice row, the catch-up as a
  specification function, the last stored cycle, and the balances.
- `profiles.dfy` (module `PaymentProfiles`): the gateway response, the
  payment-profile row, and the import as a specification function.
- `transactions.dfy` (module `Transactions`): the bookkeeping branch of a charge.
- `models.dfy` (module `Models`): the stored objects. `RecurringPayment` is a
  class whose read-only fields are constants. The trial end and the next
  billing date are variables, because the engine overwrites them. `Database`
  holds the invoice table and the payment-profile table as sequences. Each
  method is proved against the pure functions above.

Which function models which source method:

- `within_trial_period`: `Billing.WithinTrial` (the answer) and `Billing.ClampTrial` (the trial-end overwrite).
- `get_next_billing_cycle`: `Billing.CycleLength` and `Billing.NextCycle`.
- `get_payment_due_date`: `Billing.DueDate`.
- `check_and_generate_invoices`: `Invoices.Catchup`.
- `create_invoice`: `Invoices.InvoiceAmount` and `Invoices.InvoiceRecord`.
- `get_last_billing_cycle`: `Invoices.LatestInvoice` and `Invoices.LastBillingCycle`.
- `get_current_balance` and `get_outstanding_balance`: `Invoices.CurrentBalance` and `Invoices.OutstandingBalance`, built on `Invoices.SumBalance`.
- `populate_payment_profile`: `PaymentProfiles.Populate`, built on `PaymentProfiles.Import`.
- `make_payment_transaction` (its bookkeeping branch only): `Transactions.RecordCharge`.
- The methods of `Models.RecurringPayment` perform the same operations on the stored objects, and each one is proved equal to these functions.

Modelling choices:

- The source reads the clock with `datetime.now()`. Here `now` is a
  parameter, and one value serves a whole top-level call.
- Month and year steps depend on calendar rules that are not part of this
  model. They go through `Calendar.addMonths` and `Calendar.addYears`. The
  only assumption, `ValidCalendar`, is that shifting by a positive count moves
  forward, by zero stays put, and by a negative count moves backward.
- Amounts are integer cents.
- The gateway response is an input value.

What the proofs show beyond each operation's own contract:

- The catch-up emits invoices for consecutive cycles exactly while a cycle's
  end is at or before `now`, and it stops at the first cycle that ends later.
- A cycle end lies after its start exactly when the frequency is at least 1.
- A frequency of 0 still stops: each cycle starts one day after the previous
  cycle's end, so cycle ends keep growing.
- Consecutive cycles start one cycle length plus one day apart. For example,
  daily cycles start two days apart.
- The import keeps payment-profile ids unique, even when the response repeats
  an id.

## Model

| member | source | states |
|---|---|---|
| `Billing.CycleLength` | apps/recurring_payments/models.py:144-155 | `year` steps in years and `day`/`week` in days. Every other period, including unknown ones, steps in months. The count is the frequency, times 7 for `week`. |
| `Billing.CycleEndByPeriod` | apps/recurring_payments/models.py:144-155 | One cycle adds `frequency` years, `frequency` months, `frequency` days or `7*frequency` days. An unknown period ends its cycle where `month` does. |
| `Dates.ShiftDirection` | apps/recurring_payments/models.py:147-155 | A relative-delta step moves a datetime forward, keeps it, or moves it back exactly as its count is positive, zero or negative. |
| `Billing.CycleEndAdvances` | apps/recurring_payments/models.py:144-169 | A cycle ends strictly after its start iff the frequency is at least 1, and not before its start iff the frequency is at least 0. |
| `Billing.ClampTrial` | apps/recurring_payments/models.py:133-138 | Once the trial is looked at (before billing starts, trial on, trial start set), a missing trial end, or one after the billing start, becomes exactly the billing start. A trial end already in range is kept. Otherwise nothing changes. No field other than the trial end ever changes. |
| `Billing.WithinTrialIff` | apps/recurring_payments/models.py:129-142 | The trial is running iff `now` is before the billing start, the trial is on with a start date, and `now` is not past a stored trial end. A missing trial end counts as the billing start. |
| `Billing.ClampTrialIdempotent` | apps/recurring_payments/models.py:136-140 | Looking at the trial twice changes nothing more, and gives the same answer as looking once. |
| `Billing.NextCycle` | apps/recurring_payments/models.py:157-172 | With no last cycle and a running trial, the cycle is (trial start, clamped trial end), with `now` ≤ end ≤ billing start. With no last cycle and no trial, it starts at the billing start. After a last cycle, it starts one day after that cycle's end. Non-trial cycles end one cycle length after their start. |
| `Billing.NextCycleAfterIgnoresTrial` | apps/recurring_payments/models.py:166-169 | The cycle after a given one depends only on the period and frequency, not on the trial fields or the time. |
| `Billing.ConsecutiveStarts` | apps/recurring_payments/models.py:165-169 | Daily cycles start `frequency+1` days apart and weekly cycles `7*frequency+1` days apart. With a frequency of at least 0, each cycle starts after the previous one. |
| `Billing.DueDate` | apps/recurring_payments/models.py:188-195 | The due date is `num_days` days after the cycle end. It is not before the end iff `num_days` is at least 0. |
| `Invoices.InvoiceAmount` | apps/recurring_payments/models.py:230-233 | The billed amount is the trial amount while the trial runs, and the payment amount otherwise. |
| `Invoices.InvoiceRecordFields` | apps/recurring_payments/models.py:239-273 | The stored row carries the recurring payment, the cycle start and end, and the billing date. Its invoice's due and ship dates equal the billing date. Its total, subtotal and balance all equal the billed amount. It is an estimate. |
| `Invoices.CatchupInvoicesDue` | apps/recurring_payments/models.py:198-217 | Every emitted invoice belongs to the recurring payment and covers a cycle that ended at or before `now`. Its billing date is the cycle end plus `num_days` days. It bills the amount the trial rule picks. |
| `Invoices.CatchupConsecutive` | apps/recurring_payments/models.py:198-217 | The first emitted cycle is the next cycle after the last one. Each later cycle starts one day after the previous end and spans one cycle length. |
| `Invoices.CatchupStops` | apps/recurring_payments/models.py:206-217 | After the last emitted invoice (or none), the next cycle ends after `now`, so the catch-up stops at the first cycle not yet ended. |
| `Invoices.CatchupEmptyIff` | apps/recurring_payments/models.py:211-217 | No invoice is emitted iff the first candidate cycle ends after `now`. |
| `Invoices.LatestInvoice` | apps/recurring_payments/models.py:175-177 | Among the rows of this recurring payment, it returns a stored row whose cycle start no other row exceeds. It returns none iff the payment has no rows. |
| `Invoices.LastBillingCycleSpec` | apps/recurring_payments/models.py:174-180 | A last cycle exists iff some row of this payment starts at or after the billing start. It is then a stored cycle with the greatest start among the payment's rows. |
| `Invoices.SumBalance` | apps/recurring_payments/models.py:278-282 | The SQL sum is null iff no row with a positive balance matches the filter. Otherwise it is positive. |
| `Invoices.SumBalanceIsOwed` | apps/recurring_payments/models.py:283-294 | The aggregate, with null read as 0, equals the plain row-by-row sum of the selected positive balances. |
| `Invoices.CurrentBalanceSpec` | apps/recurring_payments/models.py:277-285 | The current balance is 0 iff no owing row's cycle contains `now`. It is at least the balance of every owing row whose cycle does. |
| `Invoices.OutstandingBalanceSpec` | apps/recurring_payments/models.py:287-294 | The outstanding balance is 0 iff no owing row is billed at or before `now`. It is at least the balance of every owing row that is. |
| `Invoices.BalanceAfterInsert` | apps/recurring_payments/models.py:277-294 | Storing one more row adds its balance to a balance exactly when the query selects it. |
| `Invoices.BalancesCountOtherPayments` | apps/recurring_payments/models.py:278-291 | As written, the balance queries also sum other recurring payments' invoices. Shown on a two-payment table. |
| `Invoices.BalanceOfAfterInsert` | apps/recurring_payments/models.py:277-294 | Restricted to one recurring payment, balances ignore other payments' invoices. They grow by this payment's new invoice when the query selects it. |
| `PaymentProfiles.ProfileList` | apps/recurring_payments/models.py:94-97 | A missing entry gives no profiles, and a single profile gives a one-element list. A list is taken as it is. |
| `PaymentProfiles.SingleIsOneElementList` | apps/recurring_payments/models.py:94-98 | A response with a single profile imports exactly like the one-element list, that is, like one insert step. |
| `PaymentProfiles.LastFour` | apps/recurring_payments/models.py:118 | `s[-4:]` has length min(4, len(s)) and is a suffix of `s`. |
| `PaymentProfiles.CardNum` | apps/recurring_payments/models.py:115-120 | A card number is stored iff the response has a credit card with a card number. It is then the card number's last four characters. |
| `PaymentProfiles.ImportKeepsRows` | apps/recurring_payments/models.py:98-121 | Existing rows are unchanged and stay in front. The import only appends. |
| `PaymentProfiles.ImportIds` | apps/recurring_payments/models.py:98-121 | The stored ids afterwards are exactly the old ids together with every id in the response. |
| `PaymentProfiles.ImportKeepsIdsUnique` | apps/recurring_payments/models.py:101-106 | If the stored ids are unique, they stay unique, even when the response repeats an id. |
| `PaymentProfiles.ImportNewRows` | apps/recurring_payments/models.py:106-121 | Every inserted row belongs to this recurring payment, has an id not stored before, and is the row built from some response profile, with its card digits. |
| `Models.RecurringPayment.WithinTrialPeriod` | apps/recurring_payments/models.py:129-142 | Returns whether the trial is running. The only field it changes is the trial end, which it clamps; once looked at, the trial end is not after the billing start. |
| `Models.RecurringPayment.GetNextBillingCycle` | apps/recurring_payments/models.py:144-172 | Returns `NextCycle` of the terms before the call. The trial end is clamped only when there is no last cycle. |
| `Models.RecurringPayment.CreateInvoice` | apps/recurring_payments/models.py:221-275 | Appends exactly one invoice row, with the amount the trial rule picks. Makes the billing date the next billing date and clamps the trial end. |
| `Models.RecurringPayment.CheckAndGenerateInvoices` | apps/recurring_payments/models.py:198-217 | Appends exactly the `Catchup` invoices after the given or stored last cycle. Leaves the next billing date at the last one's billing date, or unchanged when there are none. |
| `Models.RecurringPayment.PopulatePaymentProfile` | apps/recurring_payments/models.py:85-124 | After a successful lookup, the profile table becomes `Import` of the response's profiles. After a failed lookup, it is unchanged. |
| `Transactions.RecordCharge` | apps/recurring_payments/models.py:333-373 | The transaction's status is the gateway's success flag and its amount is the invoice balance. On success the payment-received date is `now`. On failure a non-empty status detail is kept and an empty one becomes exactly "not approved". |

## Findings

| source | as written | input that shows it | evidently intended | confidence | as-written member | corrected member |
|---|---|---|---|---|---|---|
| apps/recurring_payments/models.py:277-294 | `get_current_balance` and `get_outstanding_balance` filter invoice rows only by balance and dates. They do not filter by recurring payment, so they sum every recurring payment's invoices. | Two recurring payments, each with one invoice of balance 5.00 whose cycle contains `now` and whose billing date has passed. Both balances reported for payment 1 are 10.00. | Sum only this recurring payment's invoices, as `get_last_billing_cycle` (lines 175-176) does. | medium, not executed | `Invoices.BalancesCountOtherPayments` | `Invoices.BalanceOfAfterInsert` |

## Left out

- `billing_cycle_t2d` (lines 182-186) only turns a (start, end) tuple into a dictionary and keeps `None` as `None`. The `Cycle` datatype and `Option` already carry named start and end fields, so there is nothing to model.
- `Models.RecurringPayment.CheckAndGenerateInvoices` requires `billingFrequency >= 0`, and so does `Invoices.Catchup`. With a negative frequency the source's recursion has no guaranteed progress: it either stops at the first cycle or recurses until the interpreter's recursion limit.
- `Models.RecurringPayment.CheckAndGenerateInvoices` and `Invoices.Catchup` do not model the interpreter's recursion limit at any frequency. The source recurses once per elapsed cycle (line 217). A long catch-up therefore fails after about a thousand cycles, with the invoices created so far already saved; this can happen, for instance, with frequency 0 or daily cycles over a few years. The model emits every elapsed cycle.
- The clock: the source reads `datetime.now()` afresh in each helper. The model uses one `now` per call, so time passing between those reads is not captured.
- Calendar rules for month and year steps (month lengths, clamping to the month's last day) live in the date library and are not part of this model. Only the direction of a shift is assumed.
- Persistence: `save()`, guid generation, `create_dt`/`update_dt` and the other audit fields are left out. Tables are sequences in insertion order. Rows with null cycle dates, or without an invoice, are not modelled.
- `Invoices.LatestInvoice`: when several rows share the greatest cycle start, the database may return any of them first. The model picks the earliest stored one.
- A null `trial_amount` during a trial gives an invoice with null amounts, as in the source. What the invoice store does with such an invoice is not part of this model.
- In `create_invoice`: the customer profile lookup or creation, the `bill_to_*` address copy, and the content-type lookup. These are reads of other modules. The invoice's `estimate`, `status`, `status_detail` and title are modelled.
- In `populate_payment_profile`: the gateway call (`CIMCustomerProfile.get`) is replaced by its response value. The user object is reduced to its username. A missing user is not modelled (the source raises an error there). A profile without `payment` or `customer_payment_profile_id` is not modelled either (the source raises `KeyError`); the response types always carry both.
- `make_payment_transaction` (lines 325-382): the gateway call, `Invoice.tender`, `Invoice.make_payment`, `Payment` population and `payment_update_from_response` are calls into code outside this model. `Transactions.RecordCharge` models only the record's status and amount, the failure branch's status detail, and the payment-received date. On success, the status detail set by marking the payment paid is not modelled. The result code and message fields copied from the response are not modelled.
- `tendenci/core/payments/views.py`, `tendenci/apps/martins_products/urls.py` and `tendenci/apps/products/app_registry.py` hold request handling, URL routing and plugin registration. They are not part of this model.
