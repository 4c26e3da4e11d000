/** The payment engine: a mock gateway that moves an order of the user from
    Pending to Paid by creating its one payment row. Paying an order that
    already has a Paid payment gives back that payment and changes nothing. */
module PaymentService {
  import opened Wrappers
  import opened Models
  import opened Database

  datatype PaymentError =
    /** `get_object_or_404`: no such order of this user. */
    | NotFound
    /** The order's payment exists and is neither Pending nor Paid. */
    | NotPayable
    /** The order is not Pending. */
    | NotPending
    /** The order already has a Pending payment: creating a second row for
        it breaks the one-to-one key of the payment table. */
    | DuplicatePayment

  /** What one call of `simulate_payment` gives: its answer and the order
      and payment tables after it. */
  datatype PayOutcome = PayOutcome(result: Result<Payment, PaymentError>,
                                   orders: map<OrderId, Order>, payments: map<OrderId, Payment>)

  /** The state machine of `simulate_payment` on the order and payment
      tables, at the moment `now`. */
  function Pay(orders: map<OrderId, Order>, payments: map<OrderId, Payment>,
               user: UserId, order: OrderId, via: string, now: Timestamp): (o: PayOutcome)
    ensures o.result.Failure? ==> o.orders == orders && o.payments == payments
  {
    if order !in orders || orders[order].owner != user then
      PayOutcome(Failure(NotFound), orders, payments)
    else if order in payments && payments[order].status == PaymentStatus.Paid then
      PayOutcome(Success(payments[order]), orders, payments)
    else if order in payments && payments[order].status != PaymentStatus.Pending then
      PayOutcome(Failure(NotPayable), orders, payments)
    else if orders[order].status != OrderStatus.Pending then
      PayOutcome(Failure(NotPending), orders, payments)
    else if order in payments then
      PayOutcome(Failure(DuplicatePayment), orders, payments)
    else
      var p := Payment(via, PaymentStatus.Paid, Some(now));
      PayOutcome(Success(p), orders[order := orders[order].(status := OrderStatus.Paid)], payments[order := p])
  }

  /** `simulate_payment`. `now` stands for the clock. */
  method SimulatePayment(s: Store, user: UserId, order: OrderId, via: string, now: Timestamp)
    returns (r: Result<Payment, PaymentError>)
    requires s.Valid()
    modifies s`orders, s`payments
    ensures s.Valid()
    ensures PaidInStep(old(s.orders), old(s.payments)) ==> PaidInStep(s.orders, s.payments)
    ensures PayOutcome(r, s.orders, s.payments) == Pay(old(s.orders), old(s.payments), user, order, via, now)
    ensures r.Failure? ==> unchanged(s)
  {
    // 1) the order, which must be the user's
    if order !in s.orders || s.orders[order].owner != user {
      return Failure(NotFound);
    }
    // 2) an existing payment
    if order in s.payments {
      var payment := s.payments[order];
      if payment.status == PaymentStatus.Paid {
        return Success(payment);
      }
      if payment.status != PaymentStatus.Pending {
        return Failure(NotPayable);
      }
    }
    // 3) the order must be Pending
    if s.orders[order].status != OrderStatus.Pending {
      return Failure(NotPending);
    }
    // 4) the payment row; a Pending payment is already in the table
    if order in s.payments {
      return Failure(DuplicatePayment);
    }
    var payment := Payment(via, PaymentStatus.Paid, Some(now));
    s.payments := s.payments[order := payment];
    // 5) the order's status
    s.orders := s.orders[order := s.orders[order].(status := OrderStatus.Paid)];
    return Success(payment);
  }

  /** A successful payment leaves one Paid payment for the order and returns
      it. Either the order already had it, and then nothing changes, whatever
      the order's status; or the order was Pending with no payment, and then
      the payment is new, with the given method and time, and the order is
      Paid. */
  lemma PaySucceeds(orders: map<OrderId, Order>, payments: map<OrderId, Payment>,
                    user: UserId, order: OrderId, via: string, now: Timestamp)
    ensures var o := Pay(orders, payments, user, order, via, now);
            o.result.Success? ==>
              && order in orders && orders[order].owner == user
              && order in o.payments && o.payments[order] == o.result.value
              && o.result.value.status == PaymentStatus.Paid
              && (order in payments ==>
                    o.result.value == payments[order] && o.orders == orders && o.payments == payments)
              && (order !in payments ==>
                    && o.result.value == Payment(via, PaymentStatus.Paid, Some(now))
                    && orders[order].status == OrderStatus.Pending
                    && o.orders == orders[order := orders[order].(status := OrderStatus.Paid)]
                    && o.payments == payments[order := o.result.value])
  {
  }

  /** Paying an order of the user that already has a Paid payment returns
      that payment and changes nothing, whatever the order's status and
      whatever method and time the call is given. */
  lemma PayReturnsExisting(orders: map<OrderId, Order>, payments: map<OrderId, Payment>,
                           user: UserId, order: OrderId, via: string, now: Timestamp)
    requires order in orders && orders[order].owner == user
    requires order in payments && payments[order].status == PaymentStatus.Paid
    ensures Pay(orders, payments, user, order, via, now) == PayOutcome(Success(payments[order]), orders, payments)
  {
  }

  /** The failures of a payment, each with both tables unchanged, and the
      cases in which it succeeds. */
  lemma PayFails(orders: map<OrderId, Order>, payments: map<OrderId, Payment>,
                 user: UserId, order: OrderId, via: string, now: Timestamp)
    ensures var o := Pay(orders, payments, user, order, via, now);
            && (order !in orders || orders[order].owner != user ==>
                  o == PayOutcome(Failure(NotFound), orders, payments))
            && (order in orders && orders[order].owner == user && order in payments &&
                (payments[order].status == PaymentStatus.Failed || payments[order].status == PaymentStatus.Refunded) ==>
                  o == PayOutcome(Failure(NotPayable), orders, payments))
            && (order in orders && orders[order].owner == user &&
                (order !in payments || payments[order].status == PaymentStatus.Pending) &&
                orders[order].status != OrderStatus.Pending ==>
                  o == PayOutcome(Failure(NotPending), orders, payments))
            && (order in orders && orders[order].owner == user &&
                order in payments && payments[order].status == PaymentStatus.Pending &&
                orders[order].status == OrderStatus.Pending ==>
                  o == PayOutcome(Failure(DuplicatePayment), orders, payments))
            && (o.result.Success? <==>
                  order in orders && orders[order].owner == user &&
                  ((order in payments && payments[order].status == PaymentStatus.Paid) ||
                   (order !in payments && orders[order].status == OrderStatus.Pending)))
  {
  }

  /** Paying an order twice gives the same payment, and the second call
      changes nothing, whatever method and time it is given. */
  lemma PayIdempotent(orders: map<OrderId, Order>, payments: map<OrderId, Payment>,
                      user: UserId, order: OrderId, via: string, now: Timestamp,
                      via2: string, now2: Timestamp)
    requires Pay(orders, payments, user, order, via, now).result.Success?
    ensures var o := Pay(orders, payments, user, order, via, now);
            Pay(o.orders, o.payments, user, order, via2, now2) == o
  {
  }

  /** A payment changes at most the one order, and the only change it makes
      is from Pending to Paid. */
  lemma PayOnlyPendingToPaid(orders: map<OrderId, Order>, payments: map<OrderId, Payment>,
                             user: UserId, order: OrderId, via: string, now: Timestamp)
    ensures var o := Pay(orders, payments, user, order, via, now);
            && o.orders.Keys == orders.Keys
            && (forall x :: x in orders && x != order ==> o.orders[x] == orders[x] && (x in payments <==> x in o.payments))
            && (forall x :: x in payments && x != order ==> o.payments[x] == payments[x])
            && (order in orders && o.orders[order] != orders[order] ==>
                  orders[order].status == OrderStatus.Pending &&
                  o.orders[order] == orders[order].(status := OrderStatus.Paid))
  {
  }

  /** Every payment keeps belonging to an order, and an order that was Paid
      exactly when it had a Paid payment stays so. */
  lemma PayKeepsPaymentTable(orders: map<OrderId, Order>, payments: map<OrderId, Payment>,
                             user: UserId, order: OrderId, via: string, now: Timestamp)
    requires PaymentTable(orders, payments)
    ensures var o := Pay(orders, payments, user, order, via, now);
            && PaymentTable(o.orders, o.payments)
            && (PaidInStep(orders, payments) ==> PaidInStep(o.orders, o.payments))
  {
  }
}
