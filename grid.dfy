/** `create_parameter_grid` (src/whatif/whatif.py): expands an ordered
    dictionary from input name to candidate values into the list of all
    single-valued assignments, in the order of `itertools.product`. */
module ParameterGrid {
  import opened Values
  import Arith

  /** An insertion-ordered dictionary from input name to its candidate
      values, as `scenario_inputs.items()` lists it. */
  type ScenarioInputs = seq<(string, seq<Value>)>

  /** What the source can work on: a Python dict (no key twice) that has at
      least one key (`keys, values = zip(*items)` cannot unpack zero items). */
  predicate Valid(si: ScenarioInputs)
  {
    && |si| > 0
    && forall i, j :: 0 <= i < j < |si| ==> si[i].0 != si[j].0
  }

  /** The first half of `zip(*scenario_inputs.items())`. */
  function Keys(si: ScenarioInputs): (ks: seq<string>)
    ensures |ks| == |si| && forall k :: 0 <= k < |si| ==> ks[k] == si[k].0
  {
    seq(|si|, k requires 0 <= k < |si| => si[k].0)
  }

  /** The second half of `zip(*scenario_inputs.items())`. */
  function ValueLists(si: ScenarioInputs): (vs: seq<seq<Value>>)
    ensures |vs| == |si| && forall k :: 0 <= k < |si| ==> vs[k] == si[k].1
  {
    seq(|si|, k requires 0 <= k < |si| => si[k].1)
  }

  /** The set of keys an assignment of the grid carries. */
  function KeySet(si: ScenarioInputs): set<string>
  {
    set k | 0 <= k < |si| :: si[k].0
  }

  // ---------------------------------------------------------------------
  // itertools.product, as the left fold its documentation gives:
  //   result = [[]]; for pool in pools: result = [x+[y] for x in result for y in pool]
  // ---------------------------------------------------------------------

  /** `[x + [y] for x in ts for y in ys]`. */
  function Extend(ts: seq<seq<Value>>, ys: seq<Value>): seq<seq<Value>>
  {
    if |ts| == 0 then []
    else seq(|ys|, j requires 0 <= j < |ys| => ts[0] + [ys[j]]) + Extend(ts[1..], ys)
  }

  /** `list(product(*vs))`. */
  function Product(vs: seq<seq<Value>>): seq<seq<Value>>
  {
    if |vs| == 0 then [[]]
    else Extend(Product(vs[..|vs| - 1]), vs[|vs| - 1])
  }

  /** The product of the lengths of the candidate lists. */
  function ProdLen(vs: seq<seq<Value>>): nat
  {
    if |vs| == 0 then 1 else ProdLen(vs[..|vs| - 1]) * |vs[|vs| - 1]|
  }

  /** How many consecutive assignments share the value of input `k`: the
      product of the lengths of the lists after `k`. */
  function Stride(vs: seq<seq<Value>>, k: nat): nat
    requires k < |vs|
  {
    ProdLen(vs[k + 1..])
  }

  /** `dict(zip(keys, t))`: later pairs overwrite earlier ones. */
  function Zip(keys: seq<string>, t: seq<Value>): (m: Attrs)
    requires |keys| == |t|
    ensures m.Keys == set k | 0 <= k < |keys| :: keys[k]
  {
    if |keys| == 0 then map[]
    else Zip(keys[..|keys| - 1], t[..|t| - 1])[keys[|keys| - 1] := t[|t| - 1]]
  }

  /** The list `create_parameter_grid` returns. */
  function Grid(si: ScenarioInputs): seq<Attrs>
  {
    var ts := Product(ValueLists(si));
    seq(|ts|, i requires 0 <= i < |ts| =>
      if |ts[i]| == |si| then Zip(Keys(si), ts[i]) else map[])
  }

  // ---------------------------------------------------------------------
  // The method
  // ---------------------------------------------------------------------

  /** `create_parameter_grid`: one assignment per element of the Cartesian
      product, in product order (`GridAt` and `GridMembers` say which). */
  method CreateParameterGrid(si: ScenarioInputs) returns (paramGrid: seq<Attrs>)
    requires Valid(si)
    ensures paramGrid == Grid(si)
    ensures |paramGrid| == ProdLen(ValueLists(si))
  {
    var keys, values := Keys(si), ValueLists(si);
    var tuples := Product(values);
    ProductLength(values);
    paramGrid := [];
    for i := 0 to |tuples|
      invariant |paramGrid| == i
      invariant forall j :: 0 <= j < i ==> paramGrid[j] == Grid(si)[j]
    {
      assert |tuples[i]| == |si| by { ProductAt(values, i); }
      paramGrid := paramGrid + [Zip(keys, tuples[i])];
    }
  }

  // ---------------------------------------------------------------------
  // Properties of the product and of the grid
  // ---------------------------------------------------------------------

  lemma {:induction false} ExtendLength(ts: seq<seq<Value>>, ys: seq<Value>)
    ensures |Extend(ts, ys)| == |ts| * |ys|
  {
    if |ts| > 0 {
      ExtendLength(ts[1..], ys);
    }
  }

  /** Entry `p * |ys| + q` of the extension appends `ys[q]` to `ts[p]`. */
  lemma {:induction false} ExtendAt(ts: seq<seq<Value>>, ys: seq<Value>, p: nat, q: nat)
    requires p < |ts| && q < |ys|
    ensures |Extend(ts, ys)| == |ts| * |ys|
    ensures p * |ys| + q < |ts| * |ys|
    ensures Extend(ts, ys)[p * |ys| + q] == ts[p] + [ys[q]]
  {
    ExtendLength(ts, ys);
    var n := |ys|;
    var head := seq(n, j requires 0 <= j < n => ts[0] + [ys[j]]);
    var rest := Extend(ts[1..], ys);
    assert Extend(ts, ys) == head + rest;
    Arith.MulMono(p + 1, |ts|, n);
    if p == 0 {
      assert Extend(ts, ys)[q] == head[q];
    } else {
      ExtendAt(ts[1..], ys, p - 1, q);
      assert p * n + q == (p - 1) * n + q + n;
      assert Extend(ts, ys)[p * n + q] == rest[(p - 1) * n + q];
    }
  }

  /** The grid has as many assignments as the product of the list lengths. */
  lemma {:induction false} ProductLength(vs: seq<seq<Value>>)
    ensures |Product(vs)| == ProdLen(vs)
  {
    if |vs| > 0 {
      ProductLength(vs[..|vs| - 1]);
      ExtendLength(Product(vs[..|vs| - 1]), vs[|vs| - 1]);
    }
  }

  lemma {:induction false} ProdLenAppend(vs: seq<seq<Value>>, k: nat)
    requires k + 1 < |vs|
    ensures Stride(vs, k) == Stride(vs[..|vs| - 1], k) * |vs[|vs| - 1]|
  {
    assert vs[k + 1..][..|vs[k + 1..]| - 1] == vs[..|vs| - 1][k + 1..];
  }

  /** Element `i` of the product picks, from list `k`, the element at the
      `k`-th digit of `i` written in the mixed radix of the list lengths. */
  lemma {:induction false} ProductAt(vs: seq<seq<Value>>, i: nat)
    requires i < ProdLen(vs)
    ensures |Product(vs)| == ProdLen(vs)
    ensures |Product(vs)[i]| == |vs|
    ensures forall k :: 0 <= k < |vs| ==>
      (Stride(vs, k) > 0 && |vs[k]| > 0 &&
       Product(vs)[i][k] == vs[k][(i / Stride(vs, k)) % |vs[k]|])
  {
    ProductLength(vs);
    if |vs| > 0 {
      ProductDigit(vs, i, 0);
      forall k | 0 <= k < |vs|
        ensures Stride(vs, k) > 0 && |vs[k]| > 0
        ensures Product(vs)[i][k] == vs[k][(i / Stride(vs, k)) % |vs[k]|]
      {
        ProductDigit(vs, i, k);
      }
    }
  }

  /** `ProductAt` for one list `k`. */
  lemma {:induction false} ProductDigit(vs: seq<seq<Value>>, i: nat, k: nat)
    requires k < |vs| && i < ProdLen(vs)
    ensures |Product(vs)| == ProdLen(vs) && |Product(vs)[i]| == |vs|
    ensures Stride(vs, k) > 0 && |vs[k]| > 0
    ensures Product(vs)[i][k] == vs[k][(i / Stride(vs, k)) % |vs[k]|]
    decreases |vs|, 1
  {
    ProductEntryLength(vs, i);
    if k == |vs| - 1 {
      ProductDigitLast(vs, i);
    } else {
      ProductDigitInit(vs, i, k);
    }
  }

  /** The last list changes fastest: its digit is `i % n`. */
  lemma {:induction false} ProductDigitLast(vs: seq<seq<Value>>, i: nat)
    requires 0 < |vs| && i < ProdLen(vs)
    ensures |Product(vs)| == ProdLen(vs) && |Product(vs)[i]| == |vs|
    ensures Stride(vs, |vs| - 1) == 1 && |vs[|vs| - 1]| > 0
    ensures Product(vs)[i][|vs| - 1] == vs[|vs| - 1][i % |vs[|vs| - 1]|]
  {
    ProductEntryLength(vs, i);
    ProductSplit(vs, i);
    assert vs[|vs|..] == [];
  }

  /** A list before the last has the digit it has in the product of all
      lists but the last, at `i / n`. */
  lemma {:induction false} ProductDigitInit(vs: seq<seq<Value>>, i: nat, k: nat)
    requires k + 1 < |vs| && i < ProdLen(vs)
    ensures Stride(vs, k) > 0 && |vs[k]| > 0 && |Product(vs)| == ProdLen(vs) && |Product(vs)[i]| == |vs|
    ensures Product(vs)[i][k] == vs[k][(i / Stride(vs, k)) % |vs[k]|]
    decreases |vs|, 0
  {
    ProductEntryLength(vs, i);
    ProductSplit(vs, i);
    var init, n := vs[..|vs| - 1], |vs[|vs| - 1]|;
    var p := i / n;
    ProductDigit(init, p, k);
    ProdLenAppend(vs, k);
    assert init[k] == vs[k];
    Arith.QuotientOfQuotient(i, n, Stride(init, k), Stride(vs, k));
  }

  /** Every element of the product has one entry per list. */
  lemma {:induction false} ProductEntryLength(vs: seq<seq<Value>>, i: nat)
    requires i < ProdLen(vs)
    ensures |Product(vs)| == ProdLen(vs) && |Product(vs)[i]| == |vs|
  {
    ProductLength(vs);
    if |vs| > 0 {
      ProductSplit(vs, i);
      ProductEntryLength(vs[..|vs| - 1], i / |vs[|vs| - 1]|);
    }
  }

  /** Element `i` of the product extends element `i / n` of the product of
      all lists but the last (of length `n`) with element `i % n` of the
      last. */
  lemma {:induction false} ProductSplit(vs: seq<seq<Value>>, i: nat)
    requires |vs| > 0 && i < ProdLen(vs)
    ensures |vs[|vs| - 1]| > 0 && i / |vs[|vs| - 1]| < ProdLen(vs[..|vs| - 1])
    ensures |Product(vs)| == ProdLen(vs) && |Product(vs[..|vs| - 1])| == ProdLen(vs[..|vs| - 1])
    ensures Product(vs)[i] ==
            Product(vs[..|vs| - 1])[i / |vs[|vs| - 1]|] + [vs[|vs| - 1][i % |vs[|vs| - 1]|]]
  {
    ProductLength(vs);
    var init, last := vs[..|vs| - 1], vs[|vs| - 1];
    var n := |last|;
    ProductLength(init);
    assert n > 0;
    var p, q := i / n, i % n;
    Arith.DivBelow(i, ProdLen(init), n);
    assert i == p * n + q;
    ExtendAt(Product(init), last, p, q);
    assert Product(vs) == Extend(Product(init), last);
  }

  /** Every element of the product picks one value from each list, and every
      such pick is an element of the product. */
  lemma {:induction false} ProductMembers(vs: seq<seq<Value>>, t: seq<Value>)
    ensures t in Product(vs) <==> |t| == |vs| && forall k :: 0 <= k < |vs| ==> t[k] in vs[k]
  {
    if t in Product(vs) {
      var i :| 0 <= i < |Product(vs)| && Product(vs)[i] == t;
      ProductLength(vs);
      ProductAt(vs, i);
    }
    if |t| == |vs| && forall k :: 0 <= k < |vs| ==> t[k] in vs[k] {
      if |vs| > 0 {
        var init, last := vs[..|vs| - 1], vs[|vs| - 1];
        var u := t[..|t| - 1];
        assert forall k :: 0 <= k < |init| ==> u[k] == t[k] && init[k] == vs[k];
        ProductMembers(init, u);
        ExtendContains(Product(init), last, u, t[|t| - 1]);
        assert u + [t[|t| - 1]] == t;
      }
    }
  }

  lemma {:induction false} ExtendContains(ts: seq<seq<Value>>, ys: seq<Value>, u: seq<Value>, y: Value)
    requires u in ts && y in ys
    ensures u + [y] in Extend(ts, ys)
  {
    if ts[0] == u {
      var j :| 0 <= j < |ys| && ys[j] == y;
      assert Extend(ts, ys)[j] == u + [y];
    } else {
      ExtendContains(ts[1..], ys, u, y);
    }
  }

  lemma {:induction false} ZipAt(keys: seq<string>, t: seq<Value>, k: nat)
    requires |keys| == |t| && k < |keys|
    requires forall i, j :: 0 <= i < j < |keys| ==> keys[i] != keys[j]
    ensures keys[k] in Zip(keys, t) && Zip(keys, t)[keys[k]] == t[k]
  {
    if k < |keys| - 1 {
      ZipAt(keys[..|keys| - 1], t[..|t| - 1], k);
    }
  }

  /** `m` gives every input key one of its candidate values, and has no
      other key. */
  predicate IsAssignment(si: ScenarioInputs, m: Attrs)
  {
    && m.Keys == KeySet(si)
    && forall k :: 0 <= k < |si| ==> si[k].0 in m && m[si[k].0] in si[k].1
  }

  /** Assignment `g`, at position `i` of the grid, gives key `k` the
      candidate at the `k`-th digit of `i` written in the mixed radix of the
      list lengths: the value changes every `Stride(k)` assignments and
      cycles through the key's list in order. */
  predicate PicksDigit(si: ScenarioInputs, g: Attrs, i: nat, k: nat)
    requires k < |si|
  {
    && Stride(ValueLists(si), k) > 0 && |si[k].1| > 0 && si[k].0 in g
    && g[si[k].0] == si[k].1[(i / Stride(ValueLists(si), k)) % |si[k].1|]
  }

  /** Assignment `i` of the grid, key by key. */
  lemma {:induction false} GridEntry(si: ScenarioInputs, i: nat)
    requires Valid(si) && i < ProdLen(ValueLists(si))
    ensures |Grid(si)| == ProdLen(ValueLists(si))
    ensures Grid(si)[i].Keys == KeySet(si)
    ensures forall k :: 0 <= k < |si| ==> PicksDigit(si, Grid(si)[i], i, k)
  {
    var vs, keys := ValueLists(si), Keys(si);
    ProductLength(vs);
    ProductAt(vs, i);
    var t := Product(vs)[i];
    var g := Grid(si)[i];
    assert g == Zip(keys, t);
    assert (set k | 0 <= k < |keys| :: keys[k]) == KeySet(si);
    forall k | 0 <= k < |si|
      ensures Stride(vs, k) > 0 && |si[k].1| > 0 && si[k].0 in g
      ensures g[si[k].0] == si[k].1[(i / Stride(vs, k)) % |si[k].1|]
    {
      ZipAt(keys, t, k);
      assert vs[k] == si[k].1;
    }
  }

  /** Every assignment of the grid sets exactly the scenario keys. */
  lemma {:induction false} GridKeys(si: ScenarioInputs)
    requires Valid(si)
    ensures |Grid(si)| == ProdLen(ValueLists(si))
    ensures forall i :: 0 <= i < |Grid(si)| ==> Grid(si)[i].Keys == KeySet(si)
  {
    ProductLength(ValueLists(si));
    forall i | 0 <= i < |Grid(si)|
      ensures Grid(si)[i].Keys == KeySet(si)
    {
      GridEntry(si, i);
    }
  }

  /** The grid, assignment by assignment: assignment `i` gives key `k` the
      value at position `(i / Stride(k)) % |values of k|` of its list. */
  lemma {:induction false} GridAt(si: ScenarioInputs)
    requires Valid(si)
    ensures |Grid(si)| == ProdLen(ValueLists(si))
    ensures forall i, k :: 0 <= i < |Grid(si)| && 0 <= k < |si| ==> PicksDigit(si, Grid(si)[i], i, k)
  {
    ProductLength(ValueLists(si));
    forall i, k | 0 <= i < |Grid(si)| && 0 <= k < |si|
      ensures PicksDigit(si, Grid(si)[i], i, k)
    {
      GridEntry(si, i);
    }
  }

  /** A key whose candidate list is empty makes the grid empty. */
  lemma {:induction false} EmptyCandidatesEmptyGrid(si: ScenarioInputs, k: nat)
    requires k < |si| && si[k].1 == []
    ensures Grid(si) == []
  {
    var vs := ValueLists(si);
    ProductLength(vs);
    ProdLenZero(vs, k);
  }

  lemma {:induction false} ProdLenZero(vs: seq<seq<Value>>, k: nat)
    requires k < |vs| && vs[k] == []
    ensures ProdLen(vs) == 0
  {
    if k < |vs| - 1 {
      ProdLenZero(vs[..|vs| - 1], k);
    }
  }

  /** The assignments of the grid are exactly the choices of one candidate
      value per key. */
  lemma {:induction false} GridMembers(si: ScenarioInputs, m: Attrs)
    requires Valid(si)
    ensures m in Grid(si) <==> IsAssignment(si, m)
  {
    if IsAssignment(si, m) {
      GridHasAssignment(si, m);
    }
    if m in Grid(si) {
      var i :| 0 <= i < |Grid(si)| && Grid(si)[i] == m;
      GridEntryIsAssignment(si, i);
    }
  }

  lemma {:induction false} GridEntryIsAssignment(si: ScenarioInputs, i: nat)
    requires Valid(si) && i < |Grid(si)|
    ensures IsAssignment(si, Grid(si)[i])
  {
    ProductLength(ValueLists(si));
    GridEntry(si, i);
    var g := Grid(si)[i];
    forall k | 0 <= k < |si| ensures si[k].0 in g && g[si[k].0] in si[k].1 {
      assert PicksDigit(si, g, i, k);
      var j := (i / Stride(ValueLists(si), k)) % |si[k].1|;
      assert 0 <= j < |si[k].1|;
    }
  }

  lemma {:induction false} GridHasAssignment(si: ScenarioInputs, m: Attrs)
    requires Valid(si) && IsAssignment(si, m)
    ensures m in Grid(si)
  {
    var vs := ValueLists(si);
    var t := seq(|si|, k requires 0 <= k < |si| => m[si[k].0]);
    assert |t| == |vs| && forall k :: 0 <= k < |vs| ==> t[k] in vs[k];
    ProductMembers(vs, t);
    var i :| 0 <= i < |Product(vs)| && Product(vs)[i] == t;
    ZipAssignment(si, m, t);
    assert Grid(si)[i] == m;
  }

  /** Zipping the keys with the values an assignment gives them rebuilds it. */
  lemma {:induction false} ZipAssignment(si: ScenarioInputs, m: Attrs, t: seq<Value>)
    requires Valid(si) && IsAssignment(si, m)
    requires |t| == |si| && forall k :: 0 <= k < |si| ==> t[k] == m[si[k].0]
    ensures Zip(Keys(si), t) == m
  {
    var keys := Keys(si);
    assert (set k | 0 <= k < |keys| :: keys[k]) == KeySet(si);
    forall key | key in m
      ensures key in Zip(keys, t) && Zip(keys, t)[key] == m[key]
    {
      ZipValue(si, m, t, key);
    }
  }

  lemma {:induction false} ZipValue(si: ScenarioInputs, m: Attrs, t: seq<Value>, key: string)
    requires Valid(si) && IsAssignment(si, m)
    requires |t| == |si| && forall k :: 0 <= k < |si| ==> t[k] == m[si[k].0]
    requires key in m
    ensures key in Zip(Keys(si), t) && Zip(Keys(si), t)[key] == m[key]
  {
    var k :| 0 <= k < |si| && si[k].0 == key;
    ZipAt(Keys(si), t, k);
  }
}
