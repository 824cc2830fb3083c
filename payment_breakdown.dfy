/**
 * The payment-method breakdown of the completed orders: each order's
 * payment-method code is mapped to its display label, and per label the
 * dashboard counts the orders and adds up what the customers paid.
 */
module PaymentBreakdown {
  import opened Seqs
  import opened Grouping
  import opened Orders

  /** The display labels; the dashboard keys its breakdown by them. */
  datatype PaymentLabel =
    | Cash
    | CreditCard
    | DebitCard
    | Transfer
    | Momo
    | ZaloPay
    | VnPay
    | QrCode
    | ShopeePay
    | GrabPay

  /** The labels of the known payment-method codes; `card` is shown as a transfer. */
  const LabelOfCode: map<string, PaymentLabel> := map[
    "cash" := Cash,
    "creditCard" := CreditCard,
    "debitCard" := DebitCard,
    "card" := Transfer,
    "momo" := Momo,
    "zalopay" := ZaloPay,
    "vnpay" := VnPay,
    "qrCode" := QrCode,
    "shopeepay" := ShopeePay,
    "grabpay" := GrabPay]

  /** The label of a payment-method code; an unknown or empty code is shown as cash. */
  function PaymentLabelOf(code: string): PaymentLabel
  {
    if code in LabelOfCode then LabelOfCode[code] else Cash
  }

  /** The label an order is counted under (a missing code is the empty code). */
  function MethodLabel(o: Order): PaymentLabel
  {
    PaymentLabelOf(o.paymentMethod)
  }

  /** The running `{ count, total }` of one label. */
  datatype Tally = Tally(count: int, total: int)

  /**
   * Cash collects the `cash` code and every code without a label of its own;
   * each other label has exactly one code, `card` being the transfer code.
   */
  lemma LabelsOfCodes(code: string)
    ensures PaymentLabelOf(code) == Cash <==> code == "cash" || code !in LabelOfCode
    ensures PaymentLabelOf(code) == Transfer <==> code == "card"
    ensures PaymentLabelOf(code) == CreditCard <==> code == "creditCard"
    ensures PaymentLabelOf(code) == QrCode <==> code == "qrCode"
    ensures PaymentLabelOf("") == Cash
  {
  }

  /** Each label's tally is its order count and the sum of its customer payments. */
  ghost predicate TalliesOf(s: seq<Order>, methods: map<PaymentLabel, Tally>)
  {
    forall l :: l in methods ==>
      methods[l] == Tally(GroupSum(s, MethodLabel, l, One), GroupSum(s, MethodLabel, l, CustomerPayment))
  }

  /** One pass of the loop body adds the order to its label's tally. */
  lemma TalliesStep(done: seq<Order>, order: Order, next: seq<Order>, labels: seq<PaymentLabel>, methods: map<PaymentLabel, Tally>,
                    methods': map<PaymentLabel, Tally>)
    requires next == done + [order]
    requires KeysInFirstSeenOrder(done, MethodLabel, labels, methods) && TalliesOf(done, methods)
    requires var l := MethodLabel(order);
      var current := if l in methods then methods[l] else Tally(0, 0);
      methods' == methods[l := Tally(current.count + 1, current.total + CustomerPayment(order))]
    ensures TalliesOf(next, methods')
  {
    forall k | k in methods'
      ensures methods'[k] == Tally(GroupSum(next, MethodLabel, k, One), GroupSum(next, MethodLabel, k, CustomerPayment))
    {
      if k !in methods { AbsentKey(done, MethodLabel, k); }
      TallyStep(done, order, methods, k);
    }
  }

  /** The tally of one label after one more order. */
  lemma TallyStep(done: seq<Order>, order: Order, methods: map<PaymentLabel, Tally>, k: PaymentLabel)
    requires forall l :: l in methods ==>
      methods[l] == Tally(GroupSum(done, MethodLabel, l, One), GroupSum(done, MethodLabel, l, CustomerPayment))
    requires k !in methods ==> forall i :: 0 <= i < |done| ==> MethodLabel(done[i]) != k
    ensures var current := if k in methods then methods[k] else Tally(0, 0);
      var w := if MethodLabel(order) == k then 1 else 0;
      Tally(GroupSum(done + [order], MethodLabel, k, One), GroupSum(done + [order], MethodLabel, k, CustomerPayment))
        == Tally(current.count + w, current.total + w * CustomerPayment(order))
  {
    GroupSumStep(done, order, MethodLabel, k, One);
    GroupSumStep(done, order, MethodLabel, k, CustomerPayment);
    if k !in methods {
      GroupSumOfAbsentKey(done, MethodLabel, k, One);
      GroupSumOfAbsentKey(done, MethodLabel, k, CustomerPayment);
    }
  }

  /** The breakdown as a map: per label met, its order count and the sum of its customer payments. */
  function Breakdown(completed: seq<Order>): map<PaymentLabel, Tally>
  {
    map l | l in FirstSeen(completed, MethodLabel) :: Tally(GroupSum(completed, MethodLabel, l, One), GroupSum(completed, MethodLabel, l, CustomerPayment))
  }

  /**
   * The `forEach` over the completed orders. The labels come out in the
   * order they were first met, as the breakdown object's keys do; each
   * label's tally is its order count and the sum of its customer payments.
   */
  method GroupPayments(completed: seq<Order>) returns (labels: seq<PaymentLabel>, methods: map<PaymentLabel, Tally>)
    ensures labels == FirstSeen(completed, MethodLabel)
    ensures forall l :: l in methods <==> l in labels
    ensures forall l :: l in methods ==>
      methods[l] == Tally(GroupSum(completed, MethodLabel, l, One), GroupSum(completed, MethodLabel, l, CustomerPayment))
    ensures methods == Breakdown(completed)
  {
    labels := [];
    methods := map[];
    var i := 0;
    while i < |completed|
      invariant 0 <= i <= |completed|
      invariant KeysInFirstSeenOrder(completed[..i], MethodLabel, labels, methods)
      invariant TalliesOf(completed[..i], methods)
    {
      var order := completed[i];
      var methodName := MethodLabel(order);
      ghost var labels0, methods0 := labels, methods;
      var current := if methodName in methods then methods[methodName] else Tally(0, 0);
      if methodName !in methods {
        labels := labels + [methodName];
      }
      var customerPayment := CustomerPayment(order);
      methods := methods[methodName := Tally(current.count + 1, current.total + customerPayment)];
      PrefixStep(completed, i);
      KeysInFirstSeenOrderStep(completed[..i], order, completed[..i + 1], MethodLabel, labels0, methods0, labels, methods);
      TalliesStep(completed[..i], order, completed[..i + 1], labels0, methods0, methods);
      i := i + 1;
    }
    WholePrefix(completed);
    assert methods.Keys == Breakdown(completed).Keys;
  }

  /** The tax of an order as recorded. */
  function Tax(o: Order): int
  {
    o.tax
  }

  /** Customer payments are the revenue plus the tax, order by order and so in total. */
  lemma {:induction false} PaymentsAreRevenuePlusTax(os: seq<Order>)
    ensures Total(os, CustomerPayment) == TotalRevenue(os) + Total(os, Tax)
    decreases |os|
  {
    if os != [] {
      PaymentsAreRevenuePlusTax(os[..|os| - 1]);
    }
  }

  /**
   * Nothing is lost or counted twice: the label counts add up to the number
   * of completed orders and the label totals to what their customers paid,
   * which is the completed revenue plus the completed orders' tax.
   */
  lemma BreakdownAddsUp(completed: seq<Order>)
    ensures SumOverKeys(FirstSeen(completed, MethodLabel), completed, MethodLabel, One) == |completed|
    ensures SumOverKeys(FirstSeen(completed, MethodLabel), completed, MethodLabel, CustomerPayment)
            == TotalRevenue(completed) + Total(completed, Tax)
  {
    GroupSumsAddUp(completed, MethodLabel, One);
    TotalOfOneIsLength(completed);
    GroupSumsAddUp(completed, MethodLabel, CustomerPayment);
    PaymentsAreRevenuePlusTax(completed);
  }

  /** The orders of the worked example below, one appended at a time. */
  function ExampleOrders(): seq<Order>
  {
    [] + [Order(1, "completed", 500, 50, 0, true, "cash", 2)]
       + [Order(2, "paid", 300, 30, 0, false, "cash", 0)]
       + [Order(3, "paid", 0, 0, 0, false, "voucher", 1)]
  }

  /** All three example orders fall under cash, the unknown code `voucher` included. */
  lemma ExampleLabels()
    ensures FirstSeen(ExampleOrders(), MethodLabel) == [Cash]
  {
    var a, b, c := Order(1, "completed", 500, 50, 0, true, "cash", 2),
                   Order(2, "paid", 300, 30, 0, false, "cash", 0),
                   Order(3, "paid", 0, 0, 0, false, "voucher", 1);
    assert "voucher" !in LabelOfCode;
    FirstSeenStep([], a, MethodLabel);
    FirstSeenStep([] + [a], b, MethodLabel);
    FirstSeenStep([] + [a] + [b], c, MethodLabel);
  }

  /**
   * A tax-inclusive total of 500 is paid as 500, a tax-exclusive total of 300
   * with tax 30 as 330, and so cash counts three orders and collects 830.
   */
  lemma ExampleTallies()
    ensures GroupSum(ExampleOrders(), MethodLabel, Cash, One) == 3
    ensures GroupSum(ExampleOrders(), MethodLabel, Cash, CustomerPayment) == 830
  {
    var a, b, c := Order(1, "completed", 500, 50, 0, true, "cash", 2),
                   Order(2, "paid", 300, 30, 0, false, "cash", 0),
                   Order(3, "paid", 0, 0, 0, false, "voucher", 1);
    assert "voucher" !in LabelOfCode;
    GroupSumStep([], a, MethodLabel, Cash, One);
    GroupSumStep([] + [a], b, MethodLabel, Cash, One);
    GroupSumStep([] + [a] + [b], c, MethodLabel, Cash, One);
    GroupSumStep([], a, MethodLabel, Cash, CustomerPayment);
    GroupSumStep([] + [a], b, MethodLabel, Cash, CustomerPayment);
    GroupSumStep([] + [a] + [b], c, MethodLabel, Cash, CustomerPayment);
  }
}
