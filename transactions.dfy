/**
 * The bookkeeping branch of charging an invoice through a stored payment
 * profile: the transaction record takes the gateway's success flag as its
 * status, and a failed payment left without a status detail is marked
 * "not approved".
 */
module Transactions {
  import opened Dates
  import opened Billing
  import opened Invoices

  /** The fields of a payment-transaction row fixed before the gateway answers. */
  datatype PaymentTransaction = PaymentTransaction(
    recurringPayment: int,
    paymentProfileId: string,
    transType: string,
    amount: Option<Cents>,
    status: bool)

  /**
   * What a charge records: the transaction row, the payment's status detail
   * on failure (on success it is set by marking the payment paid, outside
   * this model), and the invoice row's payment-received date.
   */
  datatype ChargeOutcome = ChargeOutcome(
    transaction: PaymentTransaction,
    failedStatusDetail: Option<string>,
    paymentReceivedDt: Option<Time>)

  /**
   * Records a charge of invoice row `r` through `paymentProfileId`, given the
   * gateway's success flag, the payment's status detail as the gateway
   * response left it, and the row's previous payment-received date.
   */
  function RecordCharge(r: RecurringPaymentInvoice, paymentProfileId: string, success: bool,
                        statusDetail: string, received: Option<Time>, now: Time): (o: ChargeOutcome)
    ensures o.transaction.status == success && o.transaction.amount == r.invoice.balance
    ensures o.transaction.recurringPayment == r.recurringPayment && o.transaction.paymentProfileId == paymentProfileId
    ensures o.transaction.transType == "auth_capture"
    ensures success ==> o.paymentReceivedDt == Some(now) && o.failedStatusDetail == None
    ensures !success ==> o.paymentReceivedDt == received && o.failedStatusDetail.Some? && o.failedStatusDetail.value != ""
    ensures !success && statusDetail != "" ==> o.failedStatusDetail == Some(statusDetail)
    ensures !success && statusDetail == "" ==> o.failedStatusDetail == Some("not approved")
  {
    var t := PaymentTransaction(r.recurringPayment, paymentProfileId, "auth_capture", r.invoice.balance, success);
    if success then ChargeOutcome(t, None, Some(now))
    else ChargeOutcome(t, Some(if statusDetail == "" then "not approved" else statusDetail), received)
  }
}
