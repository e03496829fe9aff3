/** Reconciling a payment record into an order's monetary breakdown: grand total,
    coupon discount and the residual finance cost (installment interest). */
module Subtotals {
  import opened Wrappers
  import opened Decimal
  import opened PhpFloat
  import opened MultiCard

  /** The fields of the provider's payment record that the reconciliation reads. Amount
      fields hold their PHP string form and may list one amount per instrument. */
  datatype PaymentData = PaymentData(
    totalPaidAmount: Option<string>,  // `total_paid_amount`; None when it is not set
    detailsTotalPaidAmount: real,     // `transaction_details.total_paid_amount`, a single number
    couponAmount: string,             // `coupon_amount`
    transactionAmount: string,        // `transaction_amount`
    shippingCost: string)             // `shipping_cost`

  /** The six monetary fields of an order; None is a field that was never set. */
  datatype OrderFinancials = OrderFinancials(
    grandTotal: Option<real>,
    baseGrandTotal: Option<real>,
    discountCouponAmount: Option<real>,
    baseDiscountCouponAmount: Option<real>,
    financeCostAmount: Option<real>,
    baseFinanceCostAmount: Option<real>)

  /** The part of the store's order entity that the reconciliation writes. */
  class Order {
    var grandTotal: Option<real>
    var baseGrandTotal: Option<real>
    var discountCouponAmount: Option<real>
    var baseDiscountCouponAmount: Option<real>
    var financeCostAmount: Option<real>
    var baseFinanceCostAmount: Option<real>

    constructor ()
      ensures Financials() == OrderFinancials(None, None, None, None, None, None)
    {
      grandTotal, baseGrandTotal := None, None;
      discountCouponAmount, baseDiscountCouponAmount := None, None;
      financeCostAmount, baseFinanceCostAmount := None, None;
    }

    function Financials(): OrderFinancials
      reads this
    {
      OrderFinancials(grandTotal, baseGrandTotal, discountCouponAmount, baseDiscountCouponAmount,
             financeCostAmount, baseFinanceCostAmount)
    }
  }

  /** The amount paid: the aggregated `total_paid_amount` when it is set, else the
      unaggregated `transaction_details.total_paid_amount`. */
  function InitialBalance(data: PaymentData): real
  {
    match data.totalPaidAmount
    case Some(field) => MultiCardSum(field)
    case None => data.detailsTotalPaidAmount
  }

  /** What is left of the balance once transaction, coupon and shipping are accounted for,
      computed by the two branches of the source. */
  function Residual(data: PaymentData): real
  {
    var balance := InitialBalance(data);
    var couponAmount := MultiCardSum(data.couponAmount);
    var transactionAmount := MultiCardSum(data.transactionAmount);
    var shippingCost := MultiCardSum(data.shippingCost);
    if couponAmount != 0.0 then balance - (transactionAmount - couponAmount + shippingCost)
    else balance - transactionAmount - shippingCost
  }

  /** The order's fields after reconciliation, given their values before. */
  function Reconciled(data: PaymentData, before: OrderFinancials): OrderFinancials
  {
    var balance := InitialBalance(data);
    var couponAmount := MultiCardSum(data.couponAmount);
    var residual := Residual(data);
    OrderFinancials(
      Some(balance),
      Some(balance),
      if couponAmount != 0.0 then Some(-couponAmount) else before.discountCouponAmount,
      if couponAmount != 0.0 then Some(-couponAmount) else before.baseDiscountCouponAmount,
      if residual > 0.0 then Some(residual) else before.financeCostAmount,
      if residual > 0.0 then Some(residual) else before.baseFinanceCostAmount)
  }

  /** `setOrderSubtotals`: writes the grand total, the discount and the finance cost. */
  method SetOrderSubtotals(data: PaymentData, order: Order)
    modifies order
    ensures order.Financials() == Reconciled(data, old(order.Financials()))
  {
    var balance: real;
    if data.totalPaidAmount.Some? {
      balance := GetMultiCardValue(data.totalPaidAmount.value);
    } else {
      balance := data.detailsTotalPaidAmount;
    }
    order.grandTotal := Some(balance);
    order.baseGrandTotal := Some(balance);

    var couponAmount := GetMultiCardValue(data.couponAmount);
    var transactionAmount := GetMultiCardValue(data.transactionAmount);
    var shippingCost := GetMultiCardValue(data.shippingCost);
    if couponAmount != 0.0 {
      order.discountCouponAmount := Some(couponAmount * -1.0);
      order.baseDiscountCouponAmount := Some(couponAmount * -1.0);
      balance := balance - (transactionAmount - couponAmount + shippingCost);
    } else {
      balance := balance - transactionAmount - shippingCost;
    }

    if balance > 0.0 {
      order.financeCostAmount := Some(balance);
      order.baseFinanceCostAmount := Some(balance);
    }
  }

  /** Both grand totals are the amount paid, taken before anything is subtracted. */
  lemma GrandTotalIsAmountPaid(data: PaymentData, before: OrderFinancials)
    ensures var after := Reconciled(data, before);
      after.grandTotal == after.baseGrandTotal == Some(
        if data.totalPaidAmount.Some? then MultiCardSum(data.totalPaidAmount.value)
        else data.detailsTotalPaidAmount)
  {
  }

  /** A non-zero coupon, negative ones included, sets both discounts to its negation;
      a zero coupon leaves both as they were. */
  lemma DiscountFollowsCoupon(data: PaymentData, before: OrderFinancials)
    ensures var after := Reconciled(data, before);
      var couponAmount := MultiCardSum(data.couponAmount);
      (couponAmount != 0.0 ==>
        after.discountCouponAmount == after.baseDiscountCouponAmount == Some(-couponAmount)) &&
      (couponAmount == 0.0 ==>
        after.discountCouponAmount == before.discountCouponAmount &&
        after.baseDiscountCouponAmount == before.baseDiscountCouponAmount)
  {
  }

  /** The two branches agree: the residual is always balance - transaction + coupon - shipping. */
  lemma ResidualFormula(data: PaymentData)
    ensures Residual(data) == InitialBalance(data) - MultiCardSum(data.transactionAmount)
      + MultiCardSum(data.couponAmount) - MultiCardSum(data.shippingCost)
  {
  }

  /** Both finance costs are set, to the residual, exactly when the residual is positive. */
  lemma FinanceCostIsPositiveResidual(data: PaymentData, before: OrderFinancials)
    ensures var after := Reconciled(data, before);
      (Residual(data) > 0.0 ==>
        after.financeCostAmount == after.baseFinanceCostAmount == Some(Residual(data))) &&
      (Residual(data) <= 0.0 ==>
        after.financeCostAmount == before.financeCostAmount &&
        after.baseFinanceCostAmount == before.baseFinanceCostAmount)
  {
  }

  /** Reconciling twice with the same payment is reconciling once. */
  lemma ReconcileIdempotent(data: PaymentData, before: OrderFinancials)
    ensures Reconciled(data, Reconciled(data, before)) == Reconciled(data, before)
  {
  }

  /** Each base field mirrors its display field. */
  predicate Mirrored(t: OrderFinancials)
  {
    t.baseGrandTotal == t.grandTotal &&
    t.baseDiscountCouponAmount == t.discountCouponAmount &&
    t.baseFinanceCostAmount == t.financeCostAmount
  }

  /** Reconciliation keeps base fields mirroring display fields. */
  lemma ReconcileKeepsMirror(data: PaymentData, before: OrderFinancials)
    requires Mirrored(before)
    ensures Mirrored(Reconciled(data, before))
  {
  }

  /** The order's fields in terms of the four aggregated amounts. */
  lemma ReconcileAmounts(data: PaymentData, before: OrderFinancials, paid: real, coupon: real, transaction: real, shipping: real)
    requires InitialBalance(data) == paid
    requires MultiCardSum(data.couponAmount) == coupon
    requires MultiCardSum(data.transactionAmount) == transaction
    requires MultiCardSum(data.shippingCost) == shipping
    ensures var after := Reconciled(data, before);
      var residual := paid - transaction + coupon - shipping;
      after.grandTotal == after.baseGrandTotal == Some(paid) &&
      after.discountCouponAmount == (if coupon != 0.0 then Some(-coupon) else before.discountCouponAmount) &&
      after.financeCostAmount == (if residual > 0.0 then Some(residual) else before.financeCostAmount)
  {
    ResidualFormula(data);
  }
}
