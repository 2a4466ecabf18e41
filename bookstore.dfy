/** The Walton bookstore model: a one-time order of a perishable item, sold
    at a fixed price up to the demand, with a partial refund for every item
    left over. Its outputs are single arithmetic expressions over five
    inputs; every attribute may be a number or an array of replications,
    and numpy applies the arithmetic element by element. */
module Bookstore {
  import opened Values
  import WhatIf

  /** One set of input values (one replication). */
  datatype Inputs = Inputs(
    unitCost: real,
    sellingPrice: real,
    unitRefund: real,
    orderQuantity: real,
    demand: real)

  /** The constructor's defaults. */
  const Defaults: Inputs := Inputs(7.5, 10.0, 2.5, 200.0, 193.0)

  // ---------------------------------------------------------------------
  // The outputs on one replication
  // ---------------------------------------------------------------------

  function Min(x: real, y: real): real { if x <= y then x else y }
  function Max(x: real, y: real): real { if x >= y then x else y }
  function Add(x: real, y: real): real { x + y }
  function Sub(x: real, y: real): real { x - y }
  function Mul(x: real, y: real): real { x * y }

  /** `order_cost`: what the order costs. */
  function OrderCost(p: Inputs): (r: real)
    ensures p.orderQuantity == 0.0 ==> r == 0.0
    ensures p.unitCost >= 0.0 && p.orderQuantity >= 0.0 ==> r >= 0.0
  {
    p.unitCost * p.orderQuantity
  }

  /** `num_sold`: demand beyond the order quantity is lost, so the number
      sold is the smaller of the two. */
  function NumSold(p: Inputs): (r: real)
    ensures r <= p.orderQuantity && r <= p.demand
    ensures r == p.orderQuantity || r == p.demand
  {
    Min(p.orderQuantity, p.demand)
  }

  /** `sales_revenue`: the price on every item ordered when demand covers
      the order, on every item demanded otherwise. */
  function SalesRevenue(p: Inputs): (r: real)
    ensures p.demand >= p.orderQuantity ==> r == p.orderQuantity * p.sellingPrice
    ensures p.demand < p.orderQuantity ==> r == p.demand * p.sellingPrice
  {
    NumSold(p) * p.sellingPrice
  }

  /** `num_unsold`: what is left when demand falls short of the order. */
  function NumUnsold(p: Inputs): (r: real)
    ensures r >= 0.0 && r >= p.orderQuantity - p.demand
    ensures r == 0.0 || r == p.orderQuantity - p.demand
  {
    Max(0.0, p.orderQuantity - p.demand)
  }

  /** `refund_revenue`: nothing when demand covers the order, the refund on
      every item left over otherwise. */
  function RefundRevenue(p: Inputs): (r: real)
    ensures p.demand >= p.orderQuantity ==> r == 0.0
    ensures p.demand < p.orderQuantity ==> r == (p.orderQuantity - p.demand) * p.unitRefund
  {
    NumUnsold(p) * p.unitRefund
  }

  /** `total_revenue`: sales and refunds in the two regimes of demand. */
  function TotalRevenue(p: Inputs): (r: real)
    ensures p.demand >= p.orderQuantity ==> r == p.orderQuantity * p.sellingPrice
    ensures p.demand < p.orderQuantity ==>
      r == p.demand * p.sellingPrice + (p.orderQuantity - p.demand) * p.unitRefund
  {
    SalesRevenue(p) + RefundRevenue(p)
  }

  /** `profit`, written as the source writes it: sales and refunds less the
      order cost. In its two regimes: a sell-out earns the margin on every
      item; a shortfall in demand earns the price on what is sold and the
      refund on the rest. */
  function Profit(p: Inputs): (r: real)
    ensures p.demand >= p.orderQuantity ==> r == p.orderQuantity * (p.sellingPrice - p.unitCost)
    ensures p.demand < p.orderQuantity ==>
      r == p.demand * p.sellingPrice + (p.orderQuantity - p.demand) * p.unitRefund
           - p.orderQuantity * p.unitCost
  {
    SalesRevenue(p) + RefundRevenue(p) - OrderCost(p)
  }

  // ---------------------------------------------------------------------
  // Properties of the outputs
  // ---------------------------------------------------------------------

  /** Every ordered item is either sold or left over. */
  lemma {:induction false} SoldPlusUnsold(p: Inputs)
    ensures NumSold(p) + NumUnsold(p) == p.orderQuantity
  {
  }

  /** When demand covers the order everything is sold and nothing is
      refunded. */
  lemma {:induction false} DemandCoversOrder(p: Inputs)
    requires p.demand >= p.orderQuantity
    ensures NumSold(p) == p.orderQuantity
    ensures NumUnsold(p) == 0.0 && RefundRevenue(p) == 0.0
  {
  }

  /** Profit is total revenue less the order cost. */
  lemma {:induction false} ProfitIsRevenueLessCost(p: Inputs)
    ensures Profit(p) == TotalRevenue(p) - OrderCost(p)
  {
  }

  /** With a refund no larger than the price, more demand never lowers the
      profit. */
  lemma {:induction false} ProfitMonotoneInDemand(p: Inputs, d: real)
    requires p.unitRefund <= p.sellingPrice && p.demand <= d
    ensures Profit(p) <= Profit(p.(demand := d))
  {
    var q := p.(demand := d);
    SoldPlusUnsold(p);
    SoldPlusUnsold(q);
    assert OrderCost(q) == OrderCost(p);
    Gain(NumSold(p), NumSold(q), NumUnsold(p), NumUnsold(q), p.sellingPrice, p.unitRefund);
  }

  /** Moving items from the refunded pile to the sold pile gains the price
      less the refund on each, which is never negative. */
  lemma {:induction false} Gain(s1: real, s2: real, u1: real, u2: real, sp: real, ur: real)
    requires s1 + u1 == s2 + u2 && s1 <= s2 && ur <= sp
    ensures s1 * sp + u1 * ur <= s2 * sp + u2 * ur
  {
    var k := s2 - s1;
    MulLe(k, ur, sp);
    assert s2 * sp == s1 * sp + k * sp;
    assert u1 * ur == u2 * ur + k * ur;
  }

  lemma {:induction false} MulLe(k: real, x: real, y: real)
    requires k >= 0.0 && x <= y
    ensures k * x <= k * y
  {
  }

  /** The default bookstore earns 447.5: 193 sold at 10, 7 refunded at 2.5,
      200 bought at 7.5. */
  lemma {:induction false} DefaultProfit()
    ensures NumSold(Defaults) == 193.0 && NumUnsold(Defaults) == 7.0
    ensures Profit(Defaults) == 447.5
  {
  }

  // ---------------------------------------------------------------------
  // The outputs on attribute dictionaries (numpy arithmetic)
  // ---------------------------------------------------------------------

  /** A binary numpy operation on a number or an array of each side: arrays
      of equal length combine element by element, a number or an array of
      length 1 is repeated along the other side, and arrays of other lengths
      make numpy raise. */
  function Lift(f: (real, real) -> real, u: Value, v: Value): (r: Option<Value>)
    ensures u.Scalar? && v.Scalar? ==> r == Some(Scalar(f(u.x, v.x)))
    ensures u.Vec? && v.Vec? && |u.xs| != |v.xs| && |u.xs| != 1 && |v.xs| != 1 ==> r.None?
    ensures u.Vec? && v.Vec? && |u.xs| == |v.xs| ==>
      r.Some? && r.value.Vec? && |r.value.xs| == |u.xs| &&
      forall i :: 0 <= i < |u.xs| ==> r.value.xs[i] == f(u.xs[i], v.xs[i])
    ensures u.Scalar? && v.Vec? ==>
      r.Some? && r.value.Vec? && |r.value.xs| == |v.xs| &&
      forall i :: 0 <= i < |v.xs| ==> r.value.xs[i] == f(u.x, v.xs[i])
    ensures u.Vec? && v.Scalar? ==>
      r.Some? && r.value.Vec? && |r.value.xs| == |u.xs| &&
      forall i :: 0 <= i < |u.xs| ==> r.value.xs[i] == f(u.xs[i], v.x)
    ensures u.Vec? && v.Vec? && |u.xs| == 1 && |v.xs| != 1 ==>
      r.Some? && r.value.Vec? && |r.value.xs| == |v.xs| &&
      forall i :: 0 <= i < |v.xs| ==> r.value.xs[i] == f(u.xs[0], v.xs[i])
    ensures u.Vec? && v.Vec? && |u.xs| != 1 && |v.xs| == 1 && |u.xs| != |v.xs| ==>
      r.Some? && r.value.Vec? && |r.value.xs| == |u.xs| &&
      forall i :: 0 <= i < |u.xs| ==> r.value.xs[i] == f(u.xs[i], v.xs[0])
  {
    match (u, v)
    case (Scalar(x), Scalar(y)) => Some(Scalar(f(x, y)))
    case (Scalar(x), Vec(ys)) => Some(Vec(seq(|ys|, i requires 0 <= i < |ys| => f(x, ys[i]))))
    case (Vec(xs), Scalar(y)) => Some(Vec(seq(|xs|, i requires 0 <= i < |xs| => f(xs[i], y))))
    case (Vec(xs), Vec(ys)) =>
      if |xs| == |ys| then Some(Vec(seq(|xs|, i requires 0 <= i < |xs| => f(xs[i], ys[i]))))
      else if |xs| == 1 then Some(Vec(seq(|ys|, i requires 0 <= i < |ys| => f(xs[0], ys[i]))))
      else if |ys| == 1 then Some(Vec(seq(|xs|, i requires 0 <= i < |xs| => f(xs[i], ys[0]))))
      else None
  }

  /** `Lift` on operands that may already have raised. */
  function Apply(f: (real, real) -> real, u: Option<Value>, v: Option<Value>): (r: Option<Value>)
    ensures r.Some? ==> u.Some? && v.Some?
  {
    if u.Some? && v.Some? then Lift(f, u.value, v.value) else None
  }

  /** `self.<name>`: an attribute that is not set raises. */
  function Attr(st: Attrs, name: string): Option<Value>
  {
    if name in st then Some(st[name]) else None
  }

  /** `self.<name>()` from inside another output: an attribute of that name
      hides the method, and calling a number or an array raises. */
  function Call(st: Attrs, name: string, v: Option<Value>): (r: Option<Value>)
    ensures r.Some? <==> name !in st && v.Some?
    ensures r.Some? ==> r == v
  {
    if name in st then None else v
  }

  /** `order_cost` on an attribute dictionary: it raises unless every attribute it reads is set. */
  function AttrOrderCost(st: Attrs): (r: Option<Value>)
    ensures r.Some? ==> "unit_cost" in st && "order_quantity" in st
  {
    Apply(Mul, Attr(st, "unit_cost"), Attr(st, "order_quantity"))
  }

  /** `num_sold` on an attribute dictionary: it raises unless every attribute it reads is set. */
  function AttrNumSold(st: Attrs): (r: Option<Value>)
    ensures r.Some? ==> "order_quantity" in st && "demand" in st
  {
    Apply(Min, Attr(st, "order_quantity"), Attr(st, "demand"))
  }

  /** `sales_revenue` on an attribute dictionary: it raises unless every attribute it
      reads is set and no attribute hides an output it calls. */
  function AttrSalesRevenue(st: Attrs): (r: Option<Value>)
    ensures r.Some? ==> "order_quantity" in st && "demand" in st && "selling_price" in st
    ensures r.Some? ==> "num_sold" !in st
  {
    Apply(Mul, Call(st, "num_sold", AttrNumSold(st)), Attr(st, "selling_price"))
  }

  /** `num_unsold` on an attribute dictionary: it raises unless every attribute it reads is set. */
  function AttrNumUnsold(st: Attrs): (r: Option<Value>)
    ensures r.Some? ==> "order_quantity" in st && "demand" in st
  {
    Apply(Max, Some(Scalar(0.0)), Apply(Sub, Attr(st, "order_quantity"), Attr(st, "demand")))
  }

  /** `refund_revenue` on an attribute dictionary: it raises unless every attribute it
      reads is set and no attribute hides an output it calls. */
  function AttrRefundRevenue(st: Attrs): (r: Option<Value>)
    ensures r.Some? ==> "order_quantity" in st && "demand" in st && "unit_refund" in st
    ensures r.Some? ==> "num_unsold" !in st
  {
    Apply(Mul, Call(st, "num_unsold", AttrNumUnsold(st)), Attr(st, "unit_refund"))
  }

  /** `total_revenue` on an attribute dictionary: it raises unless every attribute it
      reads is set and no attribute hides an output it calls. */
  function AttrTotalRevenue(st: Attrs): (r: Option<Value>)
    ensures r.Some? ==> "order_quantity" in st && "demand" in st && "selling_price" in st && "unit_refund" in st
    ensures r.Some? ==> "sales_revenue" !in st && "refund_revenue" !in st && "num_sold" !in st && "num_unsold" !in st
  {
    Apply(Add, Call(st, "sales_revenue", AttrSalesRevenue(st)), Call(st, "refund_revenue", AttrRefundRevenue(st)))
  }

  /** `profit` on an attribute dictionary: it raises unless every attribute it
      reads is set and no attribute hides an output it calls. */
  function AttrProfit(st: Attrs): (r: Option<Value>)
    ensures r.Some? ==> "unit_cost" in st && "order_quantity" in st && "demand" in st && "selling_price" in st && "unit_refund" in st
    ensures r.Some? ==> "sales_revenue" !in st && "refund_revenue" !in st && "order_cost" !in st
                        && "num_sold" !in st && "num_unsold" !in st
  {
    Apply(Sub,
          Apply(Add, Call(st, "sales_revenue", AttrSalesRevenue(st)), Call(st, "refund_revenue", AttrRefundRevenue(st))),
          Call(st, "order_cost", AttrOrderCost(st)))
  }

  /** The output names of the bookstore model. */
  const OutputNames: seq<string> :=
    ["order_cost", "num_sold", "sales_revenue", "num_unsold", "refund_revenue", "total_revenue", "profit"]

  /** `getattr(model, name)()` for the bookstore model: one of its outputs,
      or None (the call raises) for any other name. An attribute of the
      output's name, set by `update` or `setattr`, hides the method, and
      calling a number or an array raises. */
  function Invoke(name: string, st: Attrs): (r: Option<Value>)
    ensures name in st || name !in OutputNames ==> r.None?
  {
    if name in st then None
    else if name == "order_cost" then AttrOrderCost(st)
    else if name == "num_sold" then AttrNumSold(st)
    else if name == "sales_revenue" then AttrSalesRevenue(st)
    else if name == "num_unsold" then AttrNumUnsold(st)
    else if name == "refund_revenue" then AttrRefundRevenue(st)
    else if name == "total_revenue" then AttrTotalRevenue(st)
    else if name == "profit" then AttrProfit(st)
    else None
  }

  /** The output `name` on one replication. */
  function Formula(name: string, p: Inputs): real
  {
    if name == "order_cost" then OrderCost(p)
    else if name == "num_sold" then NumSold(p)
    else if name == "sales_revenue" then SalesRevenue(p)
    else if name == "num_unsold" then NumUnsold(p)
    else if name == "refund_revenue" then RefundRevenue(p)
    else if name == "total_revenue" then TotalRevenue(p)
    else Profit(p)
  }

  /** The attributes of a bookstore built as `BookstoreModel(...)`. */
  function ScalarAttrs(p: Inputs): Attrs
  {
    map["unit_cost" := Scalar(p.unitCost), "selling_price" := Scalar(p.sellingPrice),
        "unit_refund" := Scalar(p.unitRefund), "order_quantity" := Scalar(p.orderQuantity),
        "demand" := Scalar(p.demand)]
  }

  function UnitCost(p: Inputs): real { p.unitCost }
  function SellingPrice(p: Inputs): real { p.sellingPrice }
  function UnitRefund(p: Inputs): real { p.unitRefund }
  function OrderQuantity(p: Inputs): real { p.orderQuantity }
  function Demand(p: Inputs): real { p.demand }

  /** One quantity over all replications. */
  function Column(ps: seq<Inputs>, g: Inputs -> real): (c: seq<real>)
    ensures |c| == |ps| && forall i :: 0 <= i < |ps| ==> c[i] == g(ps[i])
  {
    seq(|ps|, i requires 0 <= i < |ps| => g(ps[i]))
  }

  /** The attributes of a bookstore whose every input is an array of
      replications, replication `i` being `ps[i]`. */
  function ArrayAttrs(ps: seq<Inputs>): Attrs
  {
    map["unit_cost" := Vec(Column(ps, UnitCost)), "selling_price" := Vec(Column(ps, SellingPrice)),
        "unit_refund" := Vec(Column(ps, UnitRefund)), "order_quantity" := Vec(Column(ps, OrderQuantity)),
        "demand" := Vec(Column(ps, Demand))]
  }

  /** `BookstoreModel(unit_cost, selling_price, unit_refund, order_quantity,
      demand)`. */
  method NewBookstore(p: Inputs) returns (m: WhatIf.Model)
    ensures fresh(m) && m.attrs == ScalarAttrs(p) && m.invoke == Invoke
  {
    m := new WhatIf.Model(ScalarAttrs(p), Invoke);
  }

  // ---------------------------------------------------------------------
  // The dictionary outputs agree with the formulas
  // ---------------------------------------------------------------------

  /** On numbers, every output is the number its formula gives. */
  lemma {:induction false} ScalarOutputs(p: Inputs, name: string)
    requires name in OutputNames
    ensures Invoke(name, ScalarAttrs(p)) == Some(Scalar(Formula(name, p)))
  {
    assert name !in ScalarAttrs(p);
    if name == "order_cost" || name == "num_sold" || name == "num_unsold" {
      ScalarBasics(p);
    } else if name == "sales_revenue" || name == "refund_revenue" {
      ScalarRevenues(p);
    } else {
      ScalarTotals(p);
    }
  }

  /** On numbers, the outputs that read inputs only. */
  lemma {:induction false} ScalarBasics(p: Inputs)
    ensures AttrOrderCost(ScalarAttrs(p)) == Some(Scalar(OrderCost(p)))
    ensures AttrNumSold(ScalarAttrs(p)) == Some(Scalar(NumSold(p)))
    ensures AttrNumUnsold(ScalarAttrs(p)) == Some(Scalar(NumUnsold(p)))
  {
    var st := ScalarAttrs(p);
    assert Attr(st, "unit_cost") == Some(Scalar(p.unitCost));
    assert Attr(st, "order_quantity") == Some(Scalar(p.orderQuantity));
    assert Attr(st, "demand") == Some(Scalar(p.demand));
    assert AttrOrderCost(st) == Lift(Mul, Scalar(p.unitCost), Scalar(p.orderQuantity));
    assert Mul(p.unitCost, p.orderQuantity) == OrderCost(p);
  }

  /** On numbers, the sales and the refunds. */
  lemma {:induction false} ScalarRevenues(p: Inputs)
    ensures AttrSalesRevenue(ScalarAttrs(p)) == Some(Scalar(SalesRevenue(p)))
    ensures AttrRefundRevenue(ScalarAttrs(p)) == Some(Scalar(RefundRevenue(p)))
  {
    var st := ScalarAttrs(p);
    ScalarBasics(p);
    assert "num_sold" !in st && "num_unsold" !in st;
    assert Attr(st, "selling_price") == Some(Scalar(p.sellingPrice));
    assert Attr(st, "unit_refund") == Some(Scalar(p.unitRefund));
    assert AttrSalesRevenue(st) == Lift(Mul, Scalar(NumSold(p)), Scalar(p.sellingPrice));
    assert Mul(NumSold(p), p.sellingPrice) == SalesRevenue(p);
    assert AttrRefundRevenue(st) == Lift(Mul, Scalar(NumUnsold(p)), Scalar(p.unitRefund));
    assert Mul(NumUnsold(p), p.unitRefund) == RefundRevenue(p);
  }

  /** On numbers, the total revenue and the profit. */
  lemma {:induction false} ScalarTotals(p: Inputs)
    ensures AttrTotalRevenue(ScalarAttrs(p)) == Some(Scalar(TotalRevenue(p)))
    ensures AttrProfit(ScalarAttrs(p)) == Some(Scalar(Profit(p)))
  {
    var st := ScalarAttrs(p);
    ScalarBasics(p);
    ScalarRevenues(p);
    assert "sales_revenue" !in st && "refund_revenue" !in st && "order_cost" !in st;
    assert AttrTotalRevenue(st) == Lift(Add, Scalar(SalesRevenue(p)), Scalar(RefundRevenue(p)));
    assert AttrProfit(st) == Lift(Sub, Scalar(TotalRevenue(p)), Scalar(OrderCost(p)));
  }


  /** An attribute named like an output hides that method also where
      another output calls it: after `update({"num_sold": ...})` the profit
      raises, and a goal seek that changes `order_cost` cannot evaluate the
      profit anywhere. */
  lemma {:induction false} HiddenInnerOutputRaises(p: Inputs, x: real, t: real)
    ensures Invoke("profit", ScalarAttrs(p)["num_sold" := Scalar(150.0)]).None?
    ensures WhatIf.GoalProblem(Invoke, ScalarAttrs(p), "profit", "order_cost", t).F(x).None?
  {
    var st := ScalarAttrs(p)["num_sold" := Scalar(150.0)];
    assert "profit" !in st;
    var st2 := ScalarAttrs(p)["order_cost" := Scalar(x)];
    assert "profit" !in st2;
  }

  /** Two columns combine element by element. */
  lemma {:induction false} LiftColumns(ps: seq<Inputs>, f: (real, real) -> real, g: Inputs -> real, h: Inputs -> real,
                    k: Inputs -> real)
    requires forall i :: 0 <= i < |ps| ==> k(ps[i]) == f(g(ps[i]), h(ps[i]))
    ensures Lift(f, Vec(Column(ps, g)), Vec(Column(ps, h))) == Some(Vec(Column(ps, k)))
  {
    var r := Lift(f, Vec(Column(ps, g)), Vec(Column(ps, h)));
    assert r.value.xs == Column(ps, k);
  }

  /** A number combines with every element of a column. */
  lemma {:induction false} LiftNumberColumn(ps: seq<Inputs>, f: (real, real) -> real, c: real, h: Inputs -> real,
                         k: Inputs -> real)
    requires forall i :: 0 <= i < |ps| ==> k(ps[i]) == f(c, h(ps[i]))
    ensures Lift(f, Scalar(c), Vec(Column(ps, h))) == Some(Vec(Column(ps, k)))
  {
    var r := Lift(f, Scalar(c), Vec(Column(ps, h)));
    assert r.value.xs == Column(ps, k);
  }

  function Diff(p: Inputs): real { p.orderQuantity - p.demand }

  /** On arrays of replications, the inputs are their columns. */
  lemma {:induction false} ArrayInputs(ps: seq<Inputs>)
    ensures Attr(ArrayAttrs(ps), "unit_cost") == Some(Vec(Column(ps, UnitCost)))
    ensures Attr(ArrayAttrs(ps), "selling_price") == Some(Vec(Column(ps, SellingPrice)))
    ensures Attr(ArrayAttrs(ps), "unit_refund") == Some(Vec(Column(ps, UnitRefund)))
    ensures Attr(ArrayAttrs(ps), "order_quantity") == Some(Vec(Column(ps, OrderQuantity)))
    ensures Attr(ArrayAttrs(ps), "demand") == Some(Vec(Column(ps, Demand)))
  {
  }

  lemma {:induction false} ArraySales(ps: seq<Inputs>)
    ensures AttrNumSold(ArrayAttrs(ps)) == Some(Vec(Column(ps, NumSold)))
    ensures AttrSalesRevenue(ArrayAttrs(ps)) == Some(Vec(Column(ps, SalesRevenue)))
  {
    ArrayInputs(ps);
    LiftColumns(ps, Min, OrderQuantity, Demand, NumSold);
    forall i | 0 <= i < |ps|
      ensures SalesRevenue(ps[i]) == Mul(NumSold(ps[i]), SellingPrice(ps[i]))
    {
    }
    LiftColumns(ps, Mul, NumSold, SellingPrice, SalesRevenue);
  }

  lemma {:induction false} ArrayRefunds(ps: seq<Inputs>)
    ensures AttrNumUnsold(ArrayAttrs(ps)) == Some(Vec(Column(ps, NumUnsold)))
    ensures AttrRefundRevenue(ArrayAttrs(ps)) == Some(Vec(Column(ps, RefundRevenue)))
  {
    ArrayInputs(ps);
    LiftColumns(ps, Sub, OrderQuantity, Demand, Diff);
    LiftNumberColumn(ps, Max, 0.0, Diff, NumUnsold);
    forall i | 0 <= i < |ps|
      ensures RefundRevenue(ps[i]) == Mul(NumUnsold(ps[i]), UnitRefund(ps[i]))
    {
    }
    LiftColumns(ps, Mul, NumUnsold, UnitRefund, RefundRevenue);
  }

  lemma {:induction false} ArrayCost(ps: seq<Inputs>)
    ensures AttrOrderCost(ArrayAttrs(ps)) == Some(Vec(Column(ps, OrderCost)))
  {
    ArrayInputs(ps);
    LiftColumns(ps, Mul, UnitCost, OrderQuantity, OrderCost);
  }

  lemma {:induction false} ArrayTotals(ps: seq<Inputs>)
    ensures AttrTotalRevenue(ArrayAttrs(ps)) == Some(Vec(Column(ps, TotalRevenue)))
    ensures AttrProfit(ArrayAttrs(ps)) == Some(Vec(Column(ps, Profit)))
  {
    ArrayTotal(ps);
    ArrayCost(ps);
    assert "order_cost" !in ArrayAttrs(ps);
    assert AttrProfit(ArrayAttrs(ps)) ==
      Apply(Sub, AttrTotalRevenue(ArrayAttrs(ps)), AttrOrderCost(ArrayAttrs(ps)));
    LiftColumns(ps, Sub, TotalRevenue, OrderCost, Profit);
  }

  lemma {:induction false} ArrayTotal(ps: seq<Inputs>)
    ensures AttrTotalRevenue(ArrayAttrs(ps)) == Some(Vec(Column(ps, TotalRevenue)))
  {
    ArraySales(ps);
    ArrayRefunds(ps);
    assert "sales_revenue" !in ArrayAttrs(ps) && "refund_revenue" !in ArrayAttrs(ps);
    LiftColumns(ps, Add, SalesRevenue, RefundRevenue, TotalRevenue);
  }


  /** On arrays of replications, every output is the array of its formula
      on each replication. */
  lemma {:induction false} ArrayOutputs(ps: seq<Inputs>, name: string)
    requires name in OutputNames
    ensures Invoke(name, ArrayAttrs(ps)) == Some(Vec(Column(ps, p => Formula(name, p))))
  {
    if name == "order_cost" || name == "num_sold" || name == "num_unsold" {
      ArrayBasicOutput(ps, name);
    } else if name == "sales_revenue" || name == "refund_revenue" {
      ArrayRevenueOutput(ps, name);
    } else {
      ArrayTotalOutput(ps, name);
    }
  }

  lemma {:induction false} ArrayBasicOutput(ps: seq<Inputs>, name: string)
    requires name == "order_cost" || name == "num_sold" || name == "num_unsold"
    ensures Invoke(name, ArrayAttrs(ps)) == Some(Vec(Column(ps, p => Formula(name, p))))
  {
    assert name !in ArrayAttrs(ps);
    if name == "order_cost" {
      ArrayCost(ps);
      AsColumn(ps, name, OrderCost);
    } else if name == "num_sold" {
      ArraySales(ps);
      AsColumn(ps, name, NumSold);
    } else {
      ArrayRefunds(ps);
      AsColumn(ps, name, NumUnsold);
    }
  }

  lemma {:induction false} ArrayRevenueOutput(ps: seq<Inputs>, name: string)
    requires name == "sales_revenue" || name == "refund_revenue"
    ensures Invoke(name, ArrayAttrs(ps)) == Some(Vec(Column(ps, p => Formula(name, p))))
  {
    assert name !in ArrayAttrs(ps);
    if name == "sales_revenue" {
      ArraySales(ps);
      AsColumn(ps, name, SalesRevenue);
    } else {
      ArrayRefunds(ps);
      AsColumn(ps, name, RefundRevenue);
    }
  }

  lemma {:induction false} ArrayTotalOutput(ps: seq<Inputs>, name: string)
    requires name == "total_revenue" || name == "profit"
    ensures Invoke(name, ArrayAttrs(ps)) == Some(Vec(Column(ps, p => Formula(name, p))))
  {
    assert name !in ArrayAttrs(ps);
    ArrayTotals(ps);
    if name == "total_revenue" {
      AsColumn(ps, name, TotalRevenue);
    } else {
      AsColumn(ps, name, Profit);
    }
  }

  /** The column of an output's formula is the column of the function that
      formula names. */
  lemma {:induction false} AsColumn(ps: seq<Inputs>, name: string, g: Inputs -> real)
    requires forall p :: Formula(name, p) == g(p)
    requires Invoke(name, ArrayAttrs(ps)) == Some(Vec(Column(ps, g)))
    ensures Invoke(name, ArrayAttrs(ps)) == Some(Vec(Column(ps, p => Formula(name, p))))
  {
    SameColumn(ps, p => Formula(name, p), g);
  }

  lemma {:induction false} SameColumn(ps: seq<Inputs>, g: Inputs -> real, h: Inputs -> real)
    requires forall i :: 0 <= i < |ps| ==> g(ps[i]) == h(ps[i])
    ensures Column(ps, g) == Column(ps, h)
  {
  }
}
