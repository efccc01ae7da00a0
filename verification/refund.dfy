/** The refund route: look the order's payment up, refuse a missing or unpaid payment,
    ask the payment processor for a refund of the stored charge, classify a processor
    failure, record the refund, answer. The lookup, the processor, the refund record
    and the processor-error helpers are inputs; every external call is traced. */
module Refund {
  import opened Basics
  import opened Errors

  /** A payment row of the order: the charge, its amount in minor units, and the paid
      flag as the store returns it (the flow accepts exactly the number 1). */
  datatype PaymentRow = PaymentRow(chargeId: Id, amount: int, paid: int)

  /** What the processor is asked to refund. */
  datatype Charge = Charge(id: Id, amount: int)

  /** The processor's refund confirmation. */
  datatype RefundData = RefundData(id: Id, charge: Id, amount: int, status: string)

  /** The refund record written to the store. */
  datatype RefundRecord = RefundRecord(refundId: Id, chargeId: Id, amount: int)

  /** A processor failure: its HTTP-like status, its error code and its trace. */
  datatype GatewayFault = GatewayFault(statusCode: int, code: string, stack: string)

  /** The collaborators of the flow. `isStripeError` and `stripeMsg` classify and
      phrase processor failures; the others answer the three external calls. */
  datatype Services = Services(
    paymentDetails: Id -> Result<seq<PaymentRow>, Fault>,
    refundCharge: Charge -> Result<RefundData, GatewayFault>,
    storeRefund: RefundRecord -> Result<(), Fault>,
    isStripeError: GatewayFault -> bool,
    stripeMsg: GatewayFault -> string)

  /** The external calls of the flow, with their arguments. */
  datatype PaymentCall =
    | GetOrderPaymentDetails(orderId: Id)
    | RefundCharge(charge: Charge)
    | StoreRefund(record: RefundRecord)

  /** The reply bodies: the processor's confirmation, or the store's error when the
      refund could not be recorded. */
  datatype RefundBody = Refunded(data: RefundData) | NotRecorded(error: Fault)

  datatype RefundReply = RefundReply(status: int, body: RefundBody)

  /** The route's result (a reply, or an error handed on) and its external calls. */
  datatype RefundOutcome = RefundOutcome(result: Result<RefundReply, RouteError>, trace: seq<PaymentCall>)

  /** The developer message of a processor error: its code, ": ", its trace. */
  function DevMsg(f: GatewayFault): (m: string)
    ensures |m| == |f.code| + 2 + |f.stack|
    ensures m[..|f.code|] == f.code && m[|f.code|..|f.code| + 2] == ": " && m[|f.code| + 2..] == f.stack
  {
    f.code + ": " + f.stack
  }

  /** The error a processor failure becomes: a processor-declared error keeps its
      status and is rephrased for the user; anything else is an internal error. */
  function ClassifyGatewayFault(s: Services, f: GatewayFault): (e: RouteError)
    ensures !s.isStripeError(f) ==> e == InternalServerError
    ensures s.isStripeError(f) ==>
              e.StripeError? && e.statusCode == f.statusCode && e.userMsg == s.stripeMsg(f)
              && e.devMsg == DevMsg(f)
  {
    if !s.isStripeError(f) then InternalServerError
    else StripeError(f.statusCode, s.stripeMsg(f), DevMsg(f))
  }

  /** The charge a payment lookup leads to: the first row's charge and amount. */
  function ChargeOf(rows: seq<PaymentRow>): Charge
    requires |rows| > 0
  {
    Charge(rows[0].chargeId, rows[0].amount)
  }

  /** The record a confirmation leads to. */
  function RecordOf(d: RefundData): RefundRecord {
    RefundRecord(d.id, d.charge, d.amount)
  }

  /** The lookup found a paid payment: the processor may be asked. */
  predicate Refundable(s: Services, orderId: Id) {
    s.paymentDetails(orderId).Ok? && |s.paymentDetails(orderId).value| > 0
    && s.paymentDetails(orderId).value[0].paid == 1
  }

  /** The refund flow for one order. */
  function RefundOrder(s: Services, orderId: Id): (o: RefundOutcome)
    // The lookup always comes first, and the calls follow the protocol's order.
    ensures 1 <= |o.trace| <= 3 && o.trace[0] == GetOrderPaymentDetails(orderId)
    ensures |o.trace| >= 2 ==> o.trace[1].RefundCharge?
    ensures |o.trace| == 3 ==> o.trace[2].StoreRefund?
    // Before the processor: a lookup failure is handed on unchanged, no row is
    // "charge not found", an unpaid row is "cannot refund"; no further call is made.
    ensures s.paymentDetails(orderId).Fail? ==>
              o == RefundOutcome(Fail(Propagated(s.paymentDetails(orderId).error)), [GetOrderPaymentDetails(orderId)])
    ensures s.paymentDetails(orderId) == Ok([]) ==>
              o == RefundOutcome(Fail(ChargeNotFound), [GetOrderPaymentDetails(orderId)])
    ensures s.paymentDetails(orderId).Ok? && |s.paymentDetails(orderId).value| > 0
            && s.paymentDetails(orderId).value[0].paid != 1 ==>
              o == RefundOutcome(Fail(CannotRefundUnpaidOrder), [GetOrderPaymentDetails(orderId)])
    // The processor is asked exactly when the payment is found and paid, and then for
    // the first row's charge and amount.
    ensures (exists c :: RefundCharge(c) in o.trace) <==> Refundable(s, orderId)
    ensures Refundable(s, orderId) ==> o.trace[1] == RefundCharge(ChargeOf(s.paymentDetails(orderId).value))
    // A processor failure is classified and nothing is recorded.
    ensures Refundable(s, orderId) && s.refundCharge(ChargeOf(s.paymentDetails(orderId).value)).Fail? ==>
              |o.trace| == 2
              && o.result == Fail(ClassifyGatewayFault(s, s.refundCharge(ChargeOf(s.paymentDetails(orderId).value)).error))
    // The refund is recorded only after the processor confirmed it, with the
    // confirmation's id, charge and amount; the reply depends on the record.
    ensures (exists r :: StoreRefund(r) in o.trace) <==>
              Refundable(s, orderId) && s.refundCharge(ChargeOf(s.paymentDetails(orderId).value)).Ok?
    ensures |o.trace| == 3 ==>
              var d := s.refundCharge(ChargeOf(s.paymentDetails(orderId).value)).value;
              && o.trace[2] == StoreRefund(RecordOf(d))
              && (s.storeRefund(RecordOf(d)).Fail? ==>
                    o.result == Ok(RefundReply(400, NotRecorded(s.storeRefund(RecordOf(d)).error))))
              && (s.storeRefund(RecordOf(d)).Ok? ==> o.result == Ok(RefundReply(200, Refunded(d))))
    ensures o.result.Ok? <==> |o.trace| == 3
  {
    var lookup := GetOrderPaymentDetails(orderId);
    match s.paymentDetails(orderId)
    case Fail(e) => RefundOutcome(Fail(Propagated(e)), [lookup])
    case Ok(rows) =>
      if |rows| < 1 then RefundOutcome(Fail(ChargeNotFound), [lookup])
      else if rows[0].paid != 1 then RefundOutcome(Fail(CannotRefundUnpaidOrder), [lookup])
      else
        var charge := Charge(rows[0].chargeId, rows[0].amount);
        match s.refundCharge(charge)
        case Fail(f) => RefundOutcome(Fail(ClassifyGatewayFault(s, f)), [lookup, RefundCharge(charge)])
        case Ok(d) =>
          var record := RefundRecord(d.id, d.charge, d.amount);
          var calls := [lookup, RefundCharge(charge), StoreRefund(record)];
          match s.storeRefund(record)
          case Fail(e) => RefundOutcome(Ok(RefundReply(400, NotRecorded(e))), calls)
          case Ok(_) => RefundOutcome(Ok(RefundReply(200, Refunded(d))), calls)
  }

  /** An unpaid or missing payment never reaches the processor, whatever the processor
      and the store would have answered. */
  lemma UnpaidOrMissingNeverRefunded(s: Services, orderId: Id)
    requires s.paymentDetails(orderId).Ok?
    requires |s.paymentDetails(orderId).value| == 0 || s.paymentDetails(orderId).value[0].paid != 1
    ensures forall c :: RefundCharge(c) !in RefundOrder(s, orderId).trace
    ensures RefundOrder(s, orderId).result.Fail?
  {
  }

  /** A refund the processor made but the store failed to record is still reported
      to the caller, as a 400: the money has moved and the local record is missing. */
  lemma UnrecordedRefundReported(s: Services, orderId: Id)
    requires Refundable(s, orderId)
    requires s.refundCharge(ChargeOf(s.paymentDetails(orderId).value)).Ok?
    requires s.storeRefund(RecordOf(s.refundCharge(ChargeOf(s.paymentDetails(orderId).value)).value)).Fail?
    ensures RefundCharge(ChargeOf(s.paymentDetails(orderId).value)) in RefundOrder(s, orderId).trace
    ensures RefundOrder(s, orderId).result.Ok? && RefundOrder(s, orderId).result.value.status == 400
  {
  }

  /** The flow consults the processor-error helpers only on a processor failure: two
      service sets that differ only in them give the same outcome otherwise. */
  lemma ClassifiersOnlyOnFailure(s: Services, t: Services, orderId: Id)
    requires s.paymentDetails == t.paymentDetails && s.refundCharge == t.refundCharge
             && s.storeRefund == t.storeRefund
    requires !Refundable(s, orderId) || s.refundCharge(ChargeOf(s.paymentDetails(orderId).value)).Ok?
    ensures RefundOrder(s, orderId) == RefundOrder(t, orderId)
  {
  }
}
