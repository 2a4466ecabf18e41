/** The experiment engine of src/whatif/whatif.py: the `Model` base class with
    its attribute update and its three drivers (data table, goal seek,
    simulation), and the flattening of simulation records into rows. */
module WhatIf {
  import opened Values
  import opened ParameterGrid

  /** The named zero-argument output operations of a model:
      `invoke(name, st)` is `getattr(model, name)()` on a model whose
      attribute dictionary is `st`, and None when that call raises. Outputs
      only read attributes, so they are a pure function of them. */
  type Invoker = (string, Attrs) -> Option<Value>

  // ---------------------------------------------------------------------
  // Specification functions
  // ---------------------------------------------------------------------

  /** The dictionary that `for name in names: d[name] = getattr(model, name)()`
      builds on a model in state `st`; None when one of the calls raises. */
  function OutputRow(invoke: Invoker, st: Attrs, names: seq<string>): Option<Attrs>
  {
    if |names| == 0 then Some(map[])
    else
      match OutputRow(invoke, st, names[..|names| - 1])
      case None => None
      case Some(d) =>
        match invoke(names[|names| - 1], st)
        case None => None
        case Some(v) => Some(d[names[|names| - 1] := v])
  }

  /** The attributes of a clone that started from `base` and received
      `update(grid[0])`, ..., `update(grid[n - 1])` in turn. */
  function AfterUpdates(base: Attrs, grid: seq<Attrs>, n: nat): Attrs
    requires n <= |grid|
  {
    if n == 0 then base else AfterUpdates(base, grid, n - 1) + grid[n - 1]
  }

  /** Where the clone stands before assignment `n` of the grid: at `base`,
      or at `base` overridden by the assignment before (`CumulativeIsCurrent`). */
  function Current(base: Attrs, grid: seq<Attrs>, n: nat): Attrs
    requires n <= |grid|
  {
    if n == 0 then base else base + grid[n - 1]
  }

  function Previous(grid: seq<Attrs>, n: nat): Option<Attrs>
    requires n <= |grid|
  {
    if n == 0 then None else Some(grid[n - 1])
  }

  /** The rows `data_table` collects over `grid` when the clone stands at
      `base + g` for assignment `g`: the assignment with every output added,
      or `Raised` once an output call raises. */
  function Table(invoke: Invoker, base: Attrs, grid: seq<Attrs>, outputs: seq<string>): Result<seq<Attrs>>
  {
    TableUpTo(invoke, base, grid, outputs, |grid|)
  }

  /** `Table` over the first `n` assignments. */
  function TableUpTo(invoke: Invoker, base: Attrs, grid: seq<Attrs>, outputs: seq<string>, n: nat)
    : Result<seq<Attrs>>
    requires n <= |grid|
  {
    if n == 0 then Ok([])
    else
      match TableUpTo(invoke, base, grid, outputs, n - 1)
      case Raised => Raised
      case Ok(rows) =>
        match OutputRow(invoke, base + grid[n - 1], outputs)
        case None => Raised
        case Some(out) => Ok(rows + [grid[n - 1] + out])
  }

  /** The records `simulate` collects over `grid` when the clone stands at
      `base + g` for assignment `g`, numbered from 0; every record holds
      `baseVals` as its `scenario_base_vals`. */
  function Records(invoke: Invoker, base: Attrs, grid: seq<Attrs>, outputs: seq<string>, baseVals: Model)
    : Result<seq<ScenarioRecord>>
  {
    RecordsUpTo(invoke, base, grid, outputs, baseVals, |grid|)
  }

  /** `Records` over the first `n` assignments. */
  function RecordsUpTo(invoke: Invoker, base: Attrs, grid: seq<Attrs>, outputs: seq<string>, baseVals: Model,
                       n: nat): Result<seq<ScenarioRecord>>
    requires n <= |grid|
  {
    if n == 0 then Ok([])
    else
      match RecordsUpTo(invoke, base, grid, outputs, baseVals, n - 1)
      case Raised => Raised
      case Ok(recs) =>
        match OutputRow(invoke, base + grid[n - 1], outputs)
        case None => Raised
        case Some(out) => Ok(recs + [ScenarioRecord(baseVals, n - 1, grid[n - 1], out)])
  }

  /** What `simulate` returns on a clone at `base`: the records of the grid
      with scenario inputs, a single record numbered 0 with no scenario
      values without them. */
  function SimResults(invoke: Invoker, base: Attrs, scenarioInputs: Option<ScenarioInputs>,
                      outputs: seq<string>, baseVals: Model): Result<seq<ScenarioRecord>>
  {
    match scenarioInputs
    case Some(si) => Records(invoke, base, Grid(si), outputs, baseVals)
    case None =>
      match OutputRow(invoke, base, outputs)
      case None => Raised
      case Some(out) => Ok([ScenarioRecord(baseVals, 0, map[], out)])
  }

  /** The grid `simulate` sweeps: none without scenario inputs. */
  function ScenarioGrid(scenarioInputs: Option<ScenarioInputs>): seq<Attrs>
  {
    match scenarioInputs
    case None => []
    case Some(si) => Grid(si)
  }

  function Lo(a: real, b: real): real { if a <= b then a else b }
  function Hi(a: real, b: real): real { if a <= b then b else a }

  function Pow2(k: nat): (p: nat)
    ensures p >= 1
  {
    if k == 0 then 1 else 2 * Pow2(k - 1)
  }

  /** The width of an interval of width `w` after `k` halvings. */
  function Width(w: real, k: nat): real
  {
    w / (Pow2(k) as real)
  }

  /** How many times the loop `for n in range(1, N + 1)` runs. */
  function Rounds(n: int): nat { if n > 0 then n else 0 }

  /** `u` and `v` lie strictly on opposite sides of zero: the bisection's
      test `u * v < 0` (`CrossIsProduct`). */
  predicate Cross(u: real, v: real)
  {
    (u < 0.0 && v > 0.0) || (u > 0.0 && v < 0.0)
  }

  /** A goal-seek problem: drive output `objFn` to `target` by changing the
      attribute `byChanging` of a clone whose attributes are otherwise `base`. */
  datatype GoalProblem = GoalProblem(
    invoke: Invoker, base: Attrs, objFn: string, byChanging: string, target: real)
  {
    /** The objective: `setattr(clone, byChanging, x)`, then
        `getattr(clone, objFn)()` as a number. */
    function F(x: real): Option<real>
    {
      ToNumber(invoke(objFn, base[byChanging := Scalar(x)]))
    }

    /** `F` is defined at `lo` and `hi` and crosses the target strictly
        between them: `(F(lo) - target) * (F(hi) - target) < 0`. */
    predicate Brackets(lo: real, hi: real)
    {
      F(lo).Some? && F(hi).Some? && Cross(F(lo).value - target, F(hi).value - target)
    }

    /** Whether `lo` and `hi` bracket, told the objective's values there: the
        definition of `Brackets` unfolded at known values, for the solver. */
    lemma {:induction false} Ends(lo: real, hi: real, fl: Option<real>, fh: Option<real>, t: real)
      requires t == target && fl == F(lo) && fh == F(hi)
      ensures fl.Some? && fh.Some? ==> (Brackets(lo, hi) <==> Cross(fl.value - t, fh.value - t))
    {
    }

    /** One bisection step on a bracketing interval, told the objective's
        values at its ends and midpoint: the left half brackets, or else the
        right half brackets, or else the midpoint is a solution. */
    lemma {:induction false} Step(lo: real, hi: real, fl: Option<real>, fh: Option<real>, fm: Option<real>, t: real)
      requires Brackets(lo, hi) && t == target
      requires fl == F(lo) && fh == F(hi) && fm == F((lo + hi) / 2.0) && fm.Some?
      ensures fl.Some? && fh.Some?
      ensures Cross(fl.value - t, fm.value - t) ==> Brackets(lo, (lo + hi) / 2.0)
      ensures Cross(fh.value - t, fm.value - t) ==> Brackets((lo + hi) / 2.0, hi)
      ensures !Cross(fl.value - t, fm.value - t) && !Cross(fh.value - t, fm.value - t) ==> fm.value == t
    {
      var dl, dh, dm := fl.value - t, fh.value - t, fm.value - t;
      SignSplit(dl, dh, dm);
    }
  }

  /** One record of `simulate`. `baseVals` is the object whose live attribute
      dictionary the record holds as `scenario_base_vals`: the dictionary is
      shared, not copied, so it shows that object's attributes as they are
      whenever the record is read. */
  datatype ScenarioRecord = ScenarioRecord(
    baseVals: Model,
    scenarioNum: nat,
    scenarioVals: Attrs,
    output: Attrs)

  // ---------------------------------------------------------------------
  // The model object
  // ---------------------------------------------------------------------

  class Model {
    /** `vars(self)`: the attributes (the model inputs). */
    var attrs: Attrs
    /** The output methods of the model's class. */
    const invoke: Invoker

    /** A model object with the given attributes and output methods; the
        drivers build their clone (`copy.deepcopy(self)`) with it: a fresh
        object whose dictionary equals, and is not shared with, the
        original's. */
    constructor (attrs0: Attrs, invoke0: Invoker)
      ensures attrs == attrs0 && invoke == invoke0
    {
      attrs := attrs0;
      invoke := invoke0;
    }

    /** `setattr(self, name, x)` followed by `getattr(self, objFn)()`, as a
        number when the call yields one. */
    method Probe(name: string, x: real, objFn: string) returns (v: Option<real>)
      modifies this
      ensures attrs == old(attrs)[name := Scalar(x)]
      ensures v == ToNumber(invoke(objFn, attrs))
    {
      attrs := attrs[name := Scalar(x)];
      v := ToNumber(invoke(objFn, attrs));
    }

    /** The three evaluations of one round of `goal_seek`: at the midpoint of
        `lo` and `hi`, then, unless that call fails, at `lo` and at `hi`,
        which leaves `byChanging` at `hi`. */
    method ProbeRound(ghost p: GoalProblem, objFn: string, byChanging: string, lo: real, hi: real,
                      ghost last: real)
      returns (fm: Option<real>, fl: Option<real>, fh: Option<real>)
      requires p.invoke == invoke && p.objFn == objFn && p.byChanging == byChanging
      requires attrs == p.base[byChanging := Scalar(last)]
      modifies this
      ensures fm == p.F((lo + hi) / 2.0)
      ensures fm.Some? ==> fl == p.F(lo) && fh == p.F(hi) && attrs == p.base[byChanging := Scalar(hi)]
    {
      var m := (lo + hi) / 2.0;
      fm := Probe(byChanging, m, objFn);
      SetTwice(p.base, byChanging, Scalar(last), Scalar(m));
      if fm.None? {
        return fm, None, None;
      }
      fl := Probe(byChanging, lo, objFn);
      SetTwice(p.base, byChanging, Scalar(m), Scalar(lo));
      fh := Probe(byChanging, hi, objFn);
      SetTwice(p.base, byChanging, Scalar(lo), Scalar(hi));
    }

    /** `update`: `setattr(self, key, paramDict[key])` for every key. The keys
        of `paramDict` take its values, every other attribute keeps its own
        (the right-biased union `old(attrs) + paramDict`). */
    method Update(paramDict: Attrs)
      modifies this
      ensures attrs == old(attrs) + paramDict
    {
      var todo := paramDict.Keys;
      while todo != {}
        invariant todo <= paramDict.Keys
        invariant attrs == old(attrs) + (paramDict - todo)
        decreases todo
      {
        var key :| key in todo;
        attrs := attrs[key := paramDict[key]];
        todo := todo - {key};
      }
      assert paramDict - {} == paramDict;
    }

    /** The inner output loop of `data_table` and `simulate`: every name is
        called on the current attributes, and the first call that raises
        ends the loop (`OutputRowMeaning` states what the result holds). */
    method EvaluateOutputs(names: seq<string>) returns (r: Option<Attrs>)
      ensures r == OutputRow(invoke, attrs, names)
    {
      var raw: Attrs := map[];
      for j := 0 to |names|
        invariant OutputRow(invoke, attrs, names[..j]) == Some(raw)
      {
        assert names[..j + 1][..j] == names[..j];
        var v := invoke(names[j], attrs);
        if v.None? {
          OutputRowMeaning(invoke, attrs, names);
          return None;
        }
        raw := raw[names[j] := v.value];
      }
      assert names[..|names|] == names;
      r := Some(raw);
    }

    /** One scenario of `data_table` and `simulate`: `update(g)` on a clone
        that stands at `base`, or at `base` overridden by the previous
        assignment (which sets the same keys), then the outputs. The clone
        ends at `base + g` whatever came before. */
    method Scenario(ghost base: Attrs, ghost prev: Option<Attrs>, g: Attrs, outputs: seq<string>)
      returns (row: Option<Attrs>)
      requires prev.None? ==> attrs == base
      requires prev.Some? ==> attrs == base + prev.value && prev.value.Keys == g.Keys
      modifies this
      ensures attrs == base + g
      ensures row == OutputRow(invoke, base + g, outputs)
    {
      Update(g);
      if prev.Some? {
        Overrides(base, prev.value, g);
      }
      row := EvaluateOutputs(outputs);
    }

    /** `data_table`: one row per grid assignment, in grid order. Row `i` is
        assignment `i` with every requested output added, evaluated on the
        clone after the updates 0..i, which leave it at the caller's
        attributes overridden by assignment `i`. The caller's model is not
        written (the method modifies nothing that exists on entry). */
    method DataTable(scenarioInputs: ScenarioInputs, outputs: seq<string>) returns (r: Result<seq<Attrs>>)
      requires Valid(scenarioInputs)
      ensures r == Table(invoke, attrs, Grid(scenarioInputs), outputs)
    {
      var modelClone := new Model(attrs, invoke);
      var dtParamGrid := CreateParameterGrid(scenarioInputs);
      GridKeys(scenarioInputs);
      r := modelClone.TableLoop(dtParamGrid, KeySet(scenarioInputs), outputs);
    }

    /** The loop of `data_table`, run on the clone: every assignment of the
        grid in turn is applied with `update` and gives the row of the
        assignment with the outputs added; the first output call that
        raises ends it. After a full sweep the clone stands at its
        attributes on entry updated with every assignment. */
    method TableLoop(grid: seq<Attrs>, ghost keys: set<string>, outputs: seq<string>)
      returns (r: Result<seq<Attrs>>)
      requires forall j :: 0 <= j < |grid| ==> grid[j].Keys == keys
      modifies this
      ensures r == Table(invoke, old(attrs), grid, outputs)
      ensures r.Ok? ==> attrs == AfterUpdates(old(attrs), grid, |grid|)
    {
      var base := attrs;
      var results: seq<Attrs> := [];
      for i := 0 to |grid|
        invariant attrs == Current(base, grid, i)
        invariant TableUpTo(invoke, base, grid, outputs, i) == Ok(results)
      {
        var row := Scenario(base, Previous(grid, i), grid[i], outputs);
        TableStep(invoke, base, grid, outputs, i, results, attrs, row);
        if row.None? {
          TableRaisedStays(invoke, base, grid, outputs, i + 1);
          return Raised;
        }
        results := results + [grid[i] + row.value];
      }
      if |grid| > 0 {
        CumulativeIsCurrent(base, grid, keys, |grid|);
      }
      return Ok(results);
    }

    /** `goal_seek`: bisection for `f(x) == target` on the interval between
        `a` and `b`, where `f` is `p.F(.)`.
        It answers None exactly when `(f(a) - target) * (f(b) - target) >= 0`;
        the other failure exit of the loop cannot be taken. A number it
        answers lies between `a` and `b` and is either an exact solution or
        the midpoint of an interval of width `(b - a) / 2^N` across which `f`
        crosses the target (the source's default `N=100` is passed
        explicitly here as `n`). It raises only when `f` cannot be evaluated at
        some point between `a` and `b`. */
    method GoalSeek(objFn: string, target: real, byChanging: string, a: real, b: real, n: int)
      returns (r: Result<Option<real>>)
      ensures var p := GoalProblem(invoke, attrs, objFn, byChanging, target);
        r == Ok(None) <==> p.F(a).Some? && p.F(b).Some? && !p.Brackets(a, b)
      ensures var p := GoalProblem(invoke, attrs, objFn, byChanging, target);
        r.Raised? ==> exists x :: Lo(a, b) <= x <= Hi(a, b) && p.F(x).None?
      ensures var p := GoalProblem(invoke, attrs, objFn, byChanging, target);
        r.Ok? && r.value.Some? ==>
          && Lo(a, b) <= r.value.value <= Hi(a, b)
          && (|| p.F(r.value.value) == Some(target)
              || exists lo, hi ::
                   && p.Brackets(lo, hi)
                   && hi - lo == Width(b - a, Rounds(n))
                   && r.value.value == (lo + hi) / 2.0)
    {
      var modelClone := new Model(attrs, invoke);
      var base := attrs;
      ghost var p := GoalProblem(invoke, base, objFn, byChanging, target);

      var fA0 := modelClone.Probe(byChanging, a, objFn);
      assert fA0 == p.F(a);
      var fB0 := modelClone.Probe(byChanging, b, objFn);
      SetTwice(base, byChanging, Scalar(a), Scalar(b));
      assert fB0 == p.F(b);
      if fA0.None? || fB0.None? {
        return Raised;
      }
      p.Ends(a, b, fA0, fB0, target);
      if !Cross(fA0.value - target, fB0.value - target) {
        return Ok(None);
      }

      var aN, bN := a, b;
      var k := 1;
      ghost var last := b;
      while k <= n
        invariant 1 <= k <= Rounds(n) + 1
        invariant Lo(a, b) <= aN <= Hi(a, b) && Lo(a, b) <= bN <= Hi(a, b)
        invariant bN - aN == Width(b - a, k - 1)
        invariant p.Brackets(aN, bN)
        invariant modelClone.invoke == invoke
        invariant modelClone.attrs == base[byChanging := Scalar(last)]
        decreases n - k
      {
        var mN := (aN + bN) / 2.0;
        var fMN, fAN, fBN := modelClone.ProbeRound(p, objFn, byChanging, aN, bN, last);
        if fMN.None? {
          return Raised;
        }
        last := bN;
        p.Step(aN, bN, fAN, fBN, fMN, target);
        Halving(aN, bN, b - a, k);
        if Cross(fAN.value - target, fMN.value - target) {
          bN := mN;
        } else if Cross(fBN.value - target, fMN.value - target) {
          aN := mN;
        } else if fMN.value == target {
          return Ok(Some(mN));
        } else {
          assert false;
          return Ok(None);
        }
        k := k + 1;
      }
      return Ok(Some((aN + bN) / 2.0));
    }

    /** The scenario loop of `simulate`, run on the clone: every assignment
        of the grid (all of which set the same keys) in turn is applied with
        `update` and gives the record numbered by its position, whose base
        values are `baseVals`; the first output call that raises ends it.
        After a full sweep the clone stands at its attributes on entry
        updated with every assignment. */
    method ScenarioLoop(grid: seq<Attrs>, ghost keys: set<string>, outputs: seq<string>, baseVals: Model)
      returns (r: Result<seq<ScenarioRecord>>)
      requires forall j :: 0 <= j < |grid| ==> grid[j].Keys == keys
      modifies this
      ensures r == Records(invoke, old(attrs), grid, outputs, baseVals)
      ensures r.Ok? ==> attrs == AfterUpdates(old(attrs), grid, |grid|)
    {
      var base := attrs;
      var scenarioNum: nat := 0;
      var scenarioResults: seq<ScenarioRecord> := [];
      for i := 0 to |grid|
        invariant attrs == Current(base, grid, i)
        invariant scenarioNum == i
        invariant RecordsUpTo(invoke, base, grid, outputs, baseVals, i) == Ok(scenarioResults)
      {
        var rawOutput := Scenario(base, Previous(grid, i), grid[i], outputs);
        RecordsStep(invoke, base, grid, outputs, baseVals, i, scenarioResults, attrs, rawOutput);
        if rawOutput.None? {
          RecordsRaisedStays(invoke, base, grid, outputs, baseVals, i + 1);
          return Raised;
        }
        var result := ScenarioRecord(baseVals, scenarioNum, grid[i], rawOutput.value);
        scenarioResults := scenarioResults + [result];
        scenarioNum := scenarioNum + 1;
      }
      if |grid| > 0 {
        CumulativeIsCurrent(base, grid, keys, |grid|);
      }
      return Ok(scenarioResults);
    }

    /** `simulate`: the clone receives the random inputs, then (with scenario
        inputs) each grid assignment in turn; one record per assignment, or a
        single record without scenario inputs, numbered 0, 1, 2, ... in order.
        `scenario_base_vals` is the live attribute dictionary of the clone
        (with `keepRandomInputs`) or of this model (without); this model is
        not written. The source's defaults, `scenario_inputs=None` and
        `keep_random_inputs=False`, are passed explicitly here. */
    method Simulate(randomInputs: Attrs, outputs: seq<string>,
                    scenarioInputs: Option<ScenarioInputs>, keepRandomInputs: bool)
      returns (r: Result<seq<ScenarioRecord>>)
      requires scenarioInputs.Some? ==> Valid(scenarioInputs.value)
      ensures exists baseVals: Model ::
        && r == SimResults(invoke, attrs + randomInputs, scenarioInputs, outputs, baseVals)
        && (baseVals == this <==> !keepRandomInputs)
        && (keepRandomInputs ==> fresh(baseVals))
        && (keepRandomInputs && r.Ok? ==>
              baseVals.attrs == AfterUpdates(attrs + randomInputs, ScenarioGrid(scenarioInputs),
                                             |ScenarioGrid(scenarioInputs)|))
    {
      var modelClone := new Model(attrs, invoke);
      modelClone.Update(randomInputs);

      var scenarioBaseVals: Model;
      if keepRandomInputs {
        scenarioBaseVals := modelClone;
      } else {
        scenarioBaseVals := this;
      }

      if scenarioInputs.Some? {
        var simParamGrid := CreateParameterGrid(scenarioInputs.value);
        GridKeys(scenarioInputs.value);
        r := modelClone.ScenarioLoop(simParamGrid, KeySet(scenarioInputs.value), outputs, scenarioBaseVals);
      } else {
        var rawOutput := modelClone.EvaluateOutputs(outputs);
        if rawOutput.None? {
          r := Raised;
        } else {
          var result := ScenarioRecord(scenarioBaseVals, 0, map[], rawOutput.value);
          r := Ok([result]);
        }
      }
      assert r == SimResults(invoke, attrs + randomInputs, scenarioInputs, outputs, scenarioBaseVals);
    }
  }

  // ---------------------------------------------------------------------
  // get_sim_results_df
  // ---------------------------------------------------------------------

  /** Every output is a number or an array of `n` replications: the shape
      `pd.DataFrame(output)` accepts for `n` rows. */
  predicate Shaped(output: Attrs, n: nat)
  {
    forall o :: o in output ==> output[o].Scalar? || |output[o].xs| == n
  }

  /** The number of rows of `pd.DataFrame(output)`: 0 for no outputs, the
      common length of the arrays otherwise; None (pandas raises) when the
      arrays differ in length or every output is a number. */
  ghost function FrameLength(output: Attrs): (n: Option<nat>)
    ensures n.Some? ==> Shaped(output, n.value)
  {
    if output == map[] then Some(0)
    else if exists o :: o in output && output[o].Vec? then
      var o :| o in output && output[o].Vec?;
      if Shaped(output, |output[o].xs|) then Some(|output[o].xs|) else None
    else None
  }

  /** Cell `j` of a column: a number is repeated down the column. */
  function Cell(v: Value, j: nat): (c: Value)
    requires v.Vec? ==> j < |v.xs|
    ensures c.Scalar?
    ensures v.Vec? ==> c.x == v.xs[j]
    ensures v.Scalar? ==> c == v
  {
    match v
    case Scalar(_) => v
    case Vec(xs) => Scalar(xs[j])
  }

  /** The frame `get_sim_results_df` builds for one record of `n` rows: each
      holding cell `j` of every output, then the column `scenario_num`, then
      one column per scenario input (later columns overwrite earlier ones of
      the same name). */
  function RecordFrame(r: ScenarioRecord, n: nat): (rows: seq<Attrs>)
    requires Shaped(r.output, n)
    ensures |rows| == n
  {
    seq(n, j requires 0 <= j < n =>
      (map o | o in r.output :: Cell(r.output[o], j))
        + map["scenario_num" := Scalar(r.scenarioNum as real)]
        + r.scenarioVals)
  }

  /** Row `j` of a record's frame: its columns are the outputs,
      `scenario_num` and the scenario inputs; a scenario input shows its
      value, `scenario_num` the record's number unless a scenario input of
      that name overwrites it, and every other output its cell `j`. */
  lemma {:induction false} RecordFrameRow(r: ScenarioRecord, n: nat, j: nat)
    requires Shaped(r.output, n) && j < n
    ensures var row := RecordFrame(r, n)[j];
      && row.Keys == r.output.Keys + {"scenario_num"} + r.scenarioVals.Keys
      && (forall key :: key in r.scenarioVals ==> row[key] == r.scenarioVals[key])
      && ("scenario_num" !in r.scenarioVals ==> row["scenario_num"] == Scalar(r.scenarioNum as real))
      && (forall o :: o in r.output && o !in r.scenarioVals && o != "scenario_num" ==>
            row[o] == Cell(r.output[o], j))
  {
  }

  /** `pd.concat(dfs)`: the frames one after another. */
  function Concat(dfs: seq<seq<Attrs>>): seq<Attrs>
  {
    if |dfs| == 0 then [] else Concat(dfs[..|dfs| - 1]) + dfs[|dfs| - 1]
  }

  /** The frames of the records in record order, or None when pandas
      rejects the outputs of one of them. */
  ghost function Frames(results: seq<ScenarioRecord>): Option<seq<seq<Attrs>>>
  {
    FramesUpTo(results, |results|)
  }

  /** `Frames` of the first `n` records. */
  ghost function FramesUpTo(results: seq<ScenarioRecord>, n: nat): Option<seq<seq<Attrs>>>
    requires n <= |results|
  {
    if n == 0 then Some([])
    else
      match FramesUpTo(results, n - 1)
      case None => None
      case Some(dfs) =>
        match FrameLength(results[n - 1].output)
        case None => None
        case Some(len) => Some(dfs + [RecordFrame(results[n - 1], len)])
  }

  /** What `get_sim_results_df` returns: the frames concatenated, or
      `Raised` for an empty list (`dfs[0]` fails) or a rejected record. */
  ghost function SimResultsDf(results: seq<ScenarioRecord>): Result<seq<Attrs>>
  {
    if |results| == 0 then Raised
    else
      match Frames(results)
      case None => Raised
      case Some(dfs) => Ok(Concat(dfs))
  }

  /** `get_sim_results_df`: the frames of the records concatenated in record
      order (a single frame is returned as it is). */
  method GetSimResultsDf(results: seq<ScenarioRecord>) returns (df: Result<seq<Attrs>>)
    ensures df == SimResultsDf(results)
  {
    var dfs: seq<seq<Attrs>> := [];
    for i := 0 to |results|
      invariant FramesUpTo(results, i) == Some(dfs)
    {
      var r := results[i];
      var n := 0;
      if r.output != map[] {
        if exists o :: o in r.output && r.output[o].Vec? {
          var o :| o in r.output && r.output[o].Vec?;
          n := |r.output[o].xs|;
          FrameLengthBy(r.output, o);
        }
        if !(exists o :: o in r.output && r.output[o].Vec?) || !Shaped(r.output, n) {
          FramesNoneStays(results, i + 1);
          return Raised;
        }
      }
      assert FrameLength(r.output) == Some(n);
      dfs := dfs + [RecordFrame(r, n)];
    }
    assert |dfs| == |results| by { FramesMeaning(results); }
    if |dfs| > 1 {
      df := Ok(Concat(dfs));
    } else if |dfs| == 1 {
      assert Concat(dfs) == dfs[0] by {
        assert dfs[..0] == [];
        assert Concat(dfs) == Concat([]) + dfs[0];
      }
      df := Ok(dfs[0]);
    } else {
      df := Raised;
    }
  }

  // ---------------------------------------------------------------------
  // Lemmas
  // ---------------------------------------------------------------------

  /** The output dictionary exists exactly when every call succeeds, and then
      maps each requested name, and nothing else, to what it returns. */
  lemma {:induction false} OutputRowMeaning(invoke: Invoker, st: Attrs, names: seq<string>)
    ensures OutputRow(invoke, st, names).Some? <==>
      forall j :: 0 <= j < |names| ==> invoke(names[j], st).Some?
    ensures OutputRow(invoke, st, names).Some? ==>
      && OutputRow(invoke, st, names).value.Keys == (set j | 0 <= j < |names| :: names[j])
      && forall j :: 0 <= j < |names| ==>
           names[j] in OutputRow(invoke, st, names).value &&
           Some(OutputRow(invoke, st, names).value[names[j]]) == invoke(names[j], st)
  {
    if |names| > 0 {
      var init := names[..|names| - 1];
      OutputRowMeaning(invoke, st, init);
      assert forall j :: 0 <= j < |init| ==> init[j] == names[j];
      assert (set j | 0 <= j < |names| :: names[j]) ==
             (set j | 0 <= j < |init| :: init[j]) + {names[|names| - 1]};
    }
  }

  /** The table of a grid holds one row per assignment, assignment `i` with
      the outputs evaluated at `base + grid[i]` added, unless some output
      raises at some assignment, which is exactly when it is `Raised`. */
  lemma {:induction false} TableMeaning(invoke: Invoker, base: Attrs, grid: seq<Attrs>, outputs: seq<string>)
    ensures Table(invoke, base, grid, outputs).Raised? <==>
      exists i :: 0 <= i < |grid| && OutputRow(invoke, base + grid[i], outputs).None?
    ensures Table(invoke, base, grid, outputs).Ok? ==>
      && |Table(invoke, base, grid, outputs).value| == |grid|
      && forall i :: 0 <= i < |grid| ==>
           && OutputRow(invoke, base + grid[i], outputs).Some?
           && Table(invoke, base, grid, outputs).value[i] ==
              grid[i] + OutputRow(invoke, base + grid[i], outputs).value
  {
    TableUpToMeaning(invoke, base, grid, outputs, |grid|);
  }

  /** `TableMeaning` for the first `n` assignments. */
  lemma {:induction false} TableUpToMeaning(invoke: Invoker, base: Attrs, grid: seq<Attrs>, outputs: seq<string>,
                                            n: nat)
    requires n <= |grid|
    ensures TableUpTo(invoke, base, grid, outputs, n).Raised? <==>
      exists i :: 0 <= i < n && OutputRow(invoke, base + grid[i], outputs).None?
    ensures TableUpTo(invoke, base, grid, outputs, n).Ok? ==>
      && |TableUpTo(invoke, base, grid, outputs, n).value| == n
      && forall i :: 0 <= i < n ==>
           && OutputRow(invoke, base + grid[i], outputs).Some?
           && TableUpTo(invoke, base, grid, outputs, n).value[i] ==
              grid[i] + OutputRow(invoke, base + grid[i], outputs).value
  {
    if n > 0 {
      TableUpToMeaning(invoke, base, grid, outputs, n - 1);
    }
  }

  /** The table of one more assignment, told the outputs at it. */
  lemma {:induction false} TableStep(invoke: Invoker, base: Attrs, grid: seq<Attrs>, outputs: seq<string>,
                                     i: nat, rows: seq<Attrs>, st: Attrs, row: Option<Attrs>)
    requires i < |grid| && TableUpTo(invoke, base, grid, outputs, i) == Ok(rows)
    requires st == base + grid[i] && row == OutputRow(invoke, st, outputs)
    ensures row.None? ==> TableUpTo(invoke, base, grid, outputs, i + 1).Raised?
    ensures row.Some? ==> TableUpTo(invoke, base, grid, outputs, i + 1) == Ok(rows + [grid[i] + row.value])
  {
  }

  /** Once the table of a prefix raises, so does the table of the grid. */
  lemma {:induction false} TableRaisedStays(invoke: Invoker, base: Attrs, grid: seq<Attrs>, outputs: seq<string>,
                                            n: nat)
    requires n <= |grid| && TableUpTo(invoke, base, grid, outputs, n).Raised?
    ensures Table(invoke, base, grid, outputs).Raised?
    decreases |grid| - n
  {
    if n < |grid| {
      TableRaisedStays(invoke, base, grid, outputs, n + 1);
    }
  }

  /** The records of a grid: record `i` is numbered `i`, holds assignment
      `i` as its scenario values and the outputs evaluated at
      `base + grid[i]`; `Raised` exactly when some output call raises. */
  lemma {:induction false} RecordsMeaning(invoke: Invoker, base: Attrs, grid: seq<Attrs>, outputs: seq<string>,
                                          baseVals: Model)
    ensures Records(invoke, base, grid, outputs, baseVals).Raised? <==>
      exists i :: 0 <= i < |grid| && OutputRow(invoke, base + grid[i], outputs).None?
    ensures Records(invoke, base, grid, outputs, baseVals).Ok? ==>
      && |Records(invoke, base, grid, outputs, baseVals).value| == |grid|
      && forall i :: 0 <= i < |grid| ==>
           Some(Records(invoke, base, grid, outputs, baseVals).value[i].output) ==
             OutputRow(invoke, base + grid[i], outputs) &&
           Records(invoke, base, grid, outputs, baseVals).value[i] ==
             ScenarioRecord(baseVals, i, grid[i], Records(invoke, base, grid, outputs, baseVals).value[i].output)
  {
    RecordsUpToMeaning(invoke, base, grid, outputs, baseVals, |grid|);
  }

  /** `RecordsMeaning` for the first `n` assignments. */
  lemma {:induction false} RecordsUpToMeaning(invoke: Invoker, base: Attrs, grid: seq<Attrs>, outputs: seq<string>,
                                              baseVals: Model, n: nat)
    requires n <= |grid|
    ensures RecordsUpTo(invoke, base, grid, outputs, baseVals, n).Raised? <==>
      exists i :: 0 <= i < n && OutputRow(invoke, base + grid[i], outputs).None?
    ensures RecordsUpTo(invoke, base, grid, outputs, baseVals, n).Ok? ==>
      && |RecordsUpTo(invoke, base, grid, outputs, baseVals, n).value| == n
      && forall i :: 0 <= i < n ==>
           Some(RecordsUpTo(invoke, base, grid, outputs, baseVals, n).value[i].output) ==
             OutputRow(invoke, base + grid[i], outputs) &&
           RecordsUpTo(invoke, base, grid, outputs, baseVals, n).value[i] ==
             ScenarioRecord(baseVals, i, grid[i], RecordsUpTo(invoke, base, grid, outputs, baseVals, n).value[i].output)
  {
    if n > 0 {
      RecordsUpToMeaning(invoke, base, grid, outputs, baseVals, n - 1);
    }
  }

  /** The records of one more assignment, told the outputs at it. */
  lemma {:induction false} RecordsStep(invoke: Invoker, base: Attrs, grid: seq<Attrs>, outputs: seq<string>,
                                       baseVals: Model, i: nat, recs: seq<ScenarioRecord>, st: Attrs,
                                       out: Option<Attrs>)
    requires i < |grid| && RecordsUpTo(invoke, base, grid, outputs, baseVals, i) == Ok(recs)
    requires st == base + grid[i] && out == OutputRow(invoke, st, outputs)
    ensures out.None? ==> RecordsUpTo(invoke, base, grid, outputs, baseVals, i + 1).Raised?
    ensures out.Some? ==>
      RecordsUpTo(invoke, base, grid, outputs, baseVals, i + 1) ==
      Ok(recs + [ScenarioRecord(baseVals, i, grid[i], out.value)])
  {
  }

  /** Once the records of a prefix raise, so do the records of the grid. */
  lemma {:induction false} RecordsRaisedStays(invoke: Invoker, base: Attrs, grid: seq<Attrs>, outputs: seq<string>,
                                              baseVals: Model, n: nat)
    requires n <= |grid| && RecordsUpTo(invoke, base, grid, outputs, baseVals, n).Raised?
    ensures Records(invoke, base, grid, outputs, baseVals).Raised?
    decreases |grid| - n
  {
    if n < |grid| {
      RecordsRaisedStays(invoke, base, grid, outputs, baseVals, n + 1);
    }
  }

  /** Updating with every assignment of a grid in turn leaves the clone at
      the base attributes overridden by the latest assignment only: every
      assignment sets the same keys, so nothing of an earlier one survives. */
  lemma {:induction false} CumulativeIsCurrent(base: Attrs, grid: seq<Attrs>, keys: set<string>, n: nat)
    requires 0 < n <= |grid|
    requires forall j :: 0 <= j < n ==> grid[j].Keys == keys
    ensures AfterUpdates(base, grid, n) == base + grid[n - 1]
  {
    if n > 1 {
      CumulativeIsCurrent(base, grid, keys, n - 1);
      Overrides(base, grid[n - 2], grid[n - 1]);
    }
  }

  /** An update with the same keys as the one before it overrides all of it. */
  lemma {:induction false} Overrides(base: Attrs, g1: Attrs, g2: Attrs)
    requires g1.Keys == g2.Keys
    ensures (base + g1) + g2 == base + g2
  {
  }

  /** When `a * b < 0`, a non-zero `m` has, with one of `a` and `b`, a
      negative product. */
  lemma {:induction false} SignSplit(a: real, b: real, m: real)
    requires Cross(a, b)
    ensures m == 0.0 || Cross(a, m) || Cross(b, m)
  {
  }

  /** The sign test is the product test the bisection writes. */
  lemma {:induction false} CrossIsProduct(u: real, v: real)
    ensures Cross(u, v) <==> u * v < 0.0
  {
    if u > 0.0 && v > 0.0 {
      assert u * v > 0.0;
    } else if u < 0.0 && v < 0.0 {
      assert u * v == (-u) * (-v);
      assert (-u) * (-v) > 0.0;
    } else if u < 0.0 && v > 0.0 {
      assert (-u) * v > 0.0;
    } else if u > 0.0 && v < 0.0 {
      assert u * (-v) > 0.0;
    }
  }

  /** A second `setattr` of the same name overrides the first. */
  lemma {:induction false} SetTwice(m: Attrs, name: string, u: Value, v: Value)
    ensures m[name := u][name := v] == m[name := v]
  {
  }

  /** Halving an interval of width `w / 2^(k-1)` leaves two halves of width
      `w / 2^k`. */
  lemma {:induction false} Halving(lo: real, hi: real, w: real, k: nat)
    requires k >= 1 && hi - lo == Width(w, k - 1)
    ensures (lo + hi) / 2.0 - lo == Width(w, k)
    ensures hi - (lo + hi) / 2.0 == Width(w, k)
  {
    var q := Pow2(k - 1) as real;
    assert Pow2(k) as real == 2.0 * q;
    assert (w / q) / 2.0 == w / (2.0 * q);
  }

  /** The frames exist exactly when pandas accepts the outputs of every
      record, and then frame `i` is the frame of record `i`. */
  lemma {:induction false} FramesMeaning(results: seq<ScenarioRecord>)
    ensures Frames(results).Some? <==>
      forall i :: 0 <= i < |results| ==> FrameLength(results[i].output).Some?
    ensures Frames(results).Some? ==>
      && |Frames(results).value| == |results|
      && forall i :: 0 <= i < |results| ==>
           Frames(results).value[i] == RecordFrame(results[i], FrameLength(results[i].output).value)
  {
    FramesUpToMeaning(results, |results|);
  }

  /** `FramesMeaning` for the first `n` records. */
  lemma {:induction false} FramesUpToMeaning(results: seq<ScenarioRecord>, n: nat)
    requires n <= |results|
    ensures FramesUpTo(results, n).Some? <==>
      forall i :: 0 <= i < n ==> FrameLength(results[i].output).Some?
    ensures FramesUpTo(results, n).Some? ==>
      && |FramesUpTo(results, n).value| == n
      && forall i :: 0 <= i < n ==>
           FramesUpTo(results, n).value[i] == RecordFrame(results[i], FrameLength(results[i].output).value)
  {
    if n > 0 {
      FramesUpToMeaning(results, n - 1);
    }
  }

  /** Once the frames of a prefix fail, so do the frames of the list. */
  lemma {:induction false} FramesNoneStays(results: seq<ScenarioRecord>, n: nat)
    requires n <= |results| && FramesUpTo(results, n).None?
    ensures Frames(results).None?
    decreases |results| - n
  {
    if n < |results| {
      FramesNoneStays(results, n + 1);
    }
  }

  /** pandas accepts the outputs exactly when there are none or some array
      fits every output, and then the row count is the length of an array. */
  lemma {:induction false} FrameLengthMeaning(output: Attrs)
    ensures FrameLength(output).Some? <==>
      || output == map[]
      || exists o :: o in output && output[o].Vec? && Shaped(output, |output[o].xs|)
    ensures FrameLength(output).Some? && output != map[] ==>
      exists o :: o in output && output[o].Vec? && FrameLength(output).value == |output[o].xs|
  {
    if exists o :: o in output && output[o].Vec? && Shaped(output, |output[o].xs|) {
      var o :| o in output && output[o].Vec? && Shaped(output, |output[o].xs|);
      FrameLengthBy(output, o);
    }
  }

  /** Any array output decides the row count: its length when every other
      output fits it, and otherwise pandas raises. */
  lemma {:induction false} FrameLengthBy(output: Attrs, o: string)
    requires o in output && output[o].Vec?
    ensures Shaped(output, |output[o].xs|) ==> FrameLength(output) == Some(|output[o].xs|)
    ensures !Shaped(output, |output[o].xs|) ==> FrameLength(output).None?
  {
    if FrameLength(output).Some? {
      var n := FrameLength(output).value;
      assert |output[o].xs| == n;
    }
  }

  /** Row `j` of the frame of record `i` sits, in the flattened table, after
      the rows of the records before it. */
  lemma {:induction false} DfAt(results: seq<ScenarioRecord>, i: nat, j: nat)
    requires SimResultsDf(results).Ok? && i < |results|
    requires FrameLength(results[i].output).Some? && j < FrameLength(results[i].output).value
    ensures Frames(results).Some? && |Frames(results).value| == |results|
    ensures |Concat(Frames(results).value[..i])| + j < |SimResultsDf(results).value|
    ensures SimResultsDf(results).value[|Concat(Frames(results).value[..i])| + j] ==
            RecordFrame(results[i], FrameLength(results[i].output).value)[j]
  {
    FrameAt(results, i);
    var dfs := Frames(results).value;
    assert SimResultsDf(results).value == Concat(dfs);
    ConcatAt(dfs, i, j);
  }

  /** Frame `i` of the frames is the frame of record `i`. */
  lemma {:induction false} FrameAt(results: seq<ScenarioRecord>, i: nat)
    requires Frames(results).Some? && i < |results|
    ensures |Frames(results).value| == |results| && FrameLength(results[i].output).Some?
    ensures Frames(results).value[i] == RecordFrame(results[i], FrameLength(results[i].output).value)
  {
    FramesMeaning(results);
  }

  /** Every row of the flattened table belongs to one record: row `j` of
      record `i` sits after the rows of the records before it, is row `j`
      of that record's frame, and so carries that record's number and
      scenario values. */
  lemma {:induction false} DfRowOfRecord(results: seq<ScenarioRecord>, i: nat, j: nat)
    requires SimResultsDf(results).Ok? && i < |results|
    requires FrameLength(results[i].output).Some? && j < FrameLength(results[i].output).value
    ensures Frames(results).Some? && |Frames(results).value| == |results|
    ensures |Concat(Frames(results).value[..i])| + j < |SimResultsDf(results).value|
    ensures SimResultsDf(results).value[|Concat(Frames(results).value[..i])| + j] ==
            RecordFrame(results[i], FrameLength(results[i].output).value)[j]
    ensures var row := SimResultsDf(results).value[|Concat(Frames(results).value[..i])| + j];
      && (forall key :: key in results[i].scenarioVals ==> row[key] == results[i].scenarioVals[key])
      && ("scenario_num" !in results[i].scenarioVals ==>
            row["scenario_num"] == Scalar(results[i].scenarioNum as real))
  {
    DfAt(results, i, j);
    RecordFrameRow(results[i], FrameLength(results[i].output).value, j);
    var rows := RecordFrame(results[i], FrameLength(results[i].output).value);
    var row := SimResultsDf(results).value[|Concat(Frames(results).value[..i])| + j];
    assert row == rows[j];
  }

  /** The row count of a record's frame, 0 when pandas rejects it. */
  ghost function Rows(output: Attrs): nat
  {
    match FrameLength(output)
    case Some(n) => n
    case None => 0
  }

  ghost function RowCounts(results: seq<ScenarioRecord>): (c: seq<nat>)
    ensures |c| == |results| && forall i :: 0 <= i < |results| ==> c[i] == Rows(results[i].output)
  {
    seq(|results|, i requires 0 <= i < |results| => Rows(results[i].output))
  }

  /** The flattened table has as many rows as the records' frames together. */
  lemma {:induction false} DfLength(results: seq<ScenarioRecord>)
    requires SimResultsDf(results).Ok?
    ensures |SimResultsDf(results).value| == Sum(RowCounts(results))
  {
    FramesMeaning(results);
    ConcatLength(Frames(results).value, RowCounts(results));
  }

  /** Row `j` of the frame of record `i` sits at position
      `|Concat(dfs[..i])| + j` of the concatenation. */
  lemma {:induction false} ConcatAt(dfs: seq<seq<Attrs>>, i: nat, j: nat)
    requires i < |dfs| && j < |dfs[i]|
    ensures |Concat(dfs[..i])| + j < |Concat(dfs)|
    ensures Concat(dfs)[|Concat(dfs[..i])| + j] == dfs[i][j]
  {
    var init := dfs[..|dfs| - 1];
    if i == |dfs| - 1 {
      assert dfs[..i] == init;
    } else {
      ConcatAt(init, i, j);
      assert init[..i] == dfs[..i];
    }
  }

  /** The flattened table has as many rows as all records have replications. */
  lemma {:induction false} ConcatLength(dfs: seq<seq<Attrs>>, lengths: seq<nat>)
    requires |lengths| == |dfs| && forall i :: 0 <= i < |dfs| ==> |dfs[i]| == lengths[i]
    ensures |Concat(dfs)| == Sum(lengths)
  {
    if |dfs| > 0 {
      ConcatLength(dfs[..|dfs| - 1], lengths[..|lengths| - 1]);
    }
  }

  function Sum(s: seq<nat>): nat
  {
    if |s| == 0 then 0 else Sum(s[..|s| - 1]) + s[|s| - 1]
  }
}
