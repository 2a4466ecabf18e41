# whatif in Dafny

A model of the what-if analysis engine `whatif`, with proofs about it. In
`whatif`, a user subclasses `Model`: the model inputs are attributes and the
outputs are zero-argument methods. The engine runs three kinds of experiment
on a deep copy of the model, called the clone:

- a **data table**, with one row of outputs per combination of input values;
- a **goal seek**, which uses bisection to find an input value that drives
  one output to a target;
- a **simulation**, with one record per scenario, where the inputs may be
  arrays of random replications.

`get_sim_results_df` flattens the simulation records into rows. The example
`BookstoreModel` is the concrete model the engine drives.

The files:

- `values.dfy` (`Values`): attribute values, `Scalar(real)` or
  `Vec(seq<real>)` (a numpy array); attribute dictionaries
  `map<string, Value>`; the outcome types `Option` and `Result`. `Raised`
  stands for an exception that leaves a driver.
- `grid.dfy` (`ParameterGrid`): `create_parameter_grid`. This is
  `itertools.product` written as the left fold of its documentation, and
  `dict(zip(keys, v))` for each element. The method is proved to build that
  list. Lemmas state:
  - the grid's length;
  - the mixed-radix position of every value (the last key changes fastest);
  - that the grid holds exactly the assignments drawing each key from its
    list;
  - that an empty list gives an empty grid.
- `arith.dfy` (`Arith`): the division facts the mixed-radix proof needs.
- `whatif.dfy` (`WhatIf`): the `Model` class, with its attribute dictionary
  `attrs` and its output methods `invoke`.
  - `update` and each driver are methods with loops, proved against
    specification functions.
  - `Table`, `Records` and `SimResults` say what a driver returns. Lemmas
    (`TableMeaning`, `RecordsMeaning`, ...) say what those functions hold
    row by row.
  - The `GoalProblem` datatype carries the bisection reasoning.
  - The pandas part of `get_sim_results_df` is modelled as rows: one
    dictionary per row.
- `bookstore.dfy` (`Bookstore`): the bookstore outputs as real arithmetic
  on one replication, with their properties. The same outputs are also
  written on attribute dictionaries, with numpy's element-wise operations
  and broadcasting. Lemmas show the dictionary form computes the formula on
  numbers, and the formula on each replication on arrays. `Invoke` is the
  `invoke` of a bookstore `Model`.

The model follows the code where its documentation differs:

- `scenario_num` starts at 0, not 1.
- An empty dictionary of scenario inputs cannot be unpacked, so the
  dictionary must be non-empty (`Valid`).
- A key with an empty list of values gives an empty grid.
- `scenario_base_vals` is the live attribute dictionary of the clone or of
  the caller, not a copy. A record therefore holds the `Model` object, and
  with `keep_random_inputs` that object ends at its attributes after the
  last scenario.
- The documentation of `goal_seek` says it fails when the signs at
  `a_n`, `b_n` and `m_n` agree. In exact arithmetic, once the first test
  passes, that branch cannot be taken (`GoalProblem.Step`; `assert false` in that branch).

The drivers declare no `modifies` clause on the caller. So data table, goal
seek and simulation are proved to leave the caller's attributes as they
were; only the clone changes.

## Model

| member | source | states |
|---|---|---|
| ParameterGrid.CreateParameterGrid | src/whatif/whatif.py:19-27 | The loop builds the list of `dict(zip(keys, v))` for `v` in the product, in product order; its length is the product of the list lengths. |
| ParameterGrid.ProductAt | src/whatif/whatif.py:23 | Element `i` of `product(*values)` takes from list `k` the value at the `k`-th mixed-radix digit of `i`: `(i / stride_k) % len_k`, where the stride is the product of the lengths after `k`. |
| ParameterGrid.ProductMembers | src/whatif/whatif.py:23 | A tuple is in the product exactly when it has one entry per list and each entry comes from its list. |
| ParameterGrid.GridKeys | src/whatif/whatif.py:21-25 | The grid's length is the product of the list lengths, and every assignment has exactly the input keys. |
| ParameterGrid.GridAt | src/whatif/whatif.py:21-25 | Assignment `i` gives each key the value at its digit of `i`, so the last key cycles fastest. |
| ParameterGrid.GridMembers | src/whatif/whatif.py:21-25 | A dictionary is in the grid exactly when it has the input keys and gives each key a value from that key's list. |
| ParameterGrid.EmptyCandidatesEmptyGrid | src/whatif/whatif.py:23 | A key with no candidate values gives an empty grid, not an error. |
| WhatIf.Model.constructor | src/whatif/whatif.py:86 | The clone `copy.deepcopy(self)` builds: a fresh object with the same attributes and the same output methods. |
| WhatIf.Model.Probe | src/whatif/whatif.py:150-153 | `setattr(clone, name, x)` then `getattr(clone, objFn)()`: the attribute is set to `x`, every other attribute keeps its value, and the call is evaluated at the new attributes. |
| WhatIf.Model.Update | src/whatif/whatif.py:60-66 | After the loop over the keys, every key of the dictionary holds its value and every other attribute keeps its own. |
| WhatIf.Model.EvaluateOutputs | src/whatif/whatif.py:101-105 | The output loop yields the dictionary of all outputs, or fails at the first call that raises. |
| WhatIf.OutputRowMeaning | src/whatif/whatif.py:101-105 | The output dictionary exists exactly when every call succeeds. It then has exactly the requested names as keys, each mapped to its call's value. |
| WhatIf.Model.Scenario | src/whatif/whatif.py:97-105 | One scenario: an update whose keys are the same as the previous update's leaves the clone at the caller's attributes overridden by this assignment, and the outputs are evaluated there. |
| WhatIf.CumulativeIsCurrent | src/whatif/whatif.py:95-97 | Cumulative updates 0..n-1 with the grid's assignments equal the base overridden by assignment n-1 alone. |
| WhatIf.Model.DataTable | src/whatif/whatif.py:86-112 | `data_table` returns the table of the grid built from the scenario inputs, evaluated from the caller's attributes. The caller is not written. |
| WhatIf.Model.TableLoop | src/whatif/whatif.py:92-108 | The scenario loop of `data_table` returns the table of the grid from the clone's attributes on entry; after a full sweep the clone holds its attributes on entry updated with every assignment of the grid. |
| WhatIf.TableMeaning | src/whatif/whatif.py:95-108 | The table has one row per assignment, in grid order: row `i` is assignment `i` plus the outputs evaluated at the base overridden by assignment `i`. It is `Raised` exactly when some output call raises. |
| WhatIf.Model.GoalSeek | src/whatif/whatif.py:143-193 | Returns None exactly when both end values exist and `(f(a)-t)*(f(b)-t) >= 0`. It raises only when `f` fails at some point in the interval. A returned number lies between `a` and `b`, and is either an exact solution or the midpoint of a bracketing interval of width `(b-a)/2^N`. |
| WhatIf.Model.ProbeRound | src/whatif/whatif.py:164-176 | One round's three evaluations give `f` at the midpoint, at `a_n` and at `b_n`, and leave the attribute at `b_n`. |
| WhatIf.GoalProblem.Step | src/whatif/whatif.py:178-190 | On a bracketing interval, the left half brackets, or else the right half brackets, or else the midpoint is an exact solution. The failure branch is unreachable. |
| WhatIf.CrossIsProduct | src/whatif/whatif.py:155 | The sign test used in the model is the product test `u * v < 0` of the code. |
| WhatIf.SignSplit | src/whatif/whatif.py:179-185 | When `a*b < 0`, a non-zero `m` is on the opposite side of zero from `a` or from `b`. |
| WhatIf.Halving | src/whatif/whatif.py:164-184 | Each half of an interval of width `w/2^(k-1)` has width `w/2^k`. |
| WhatIf.Model.ScenarioLoop | src/whatif/whatif.py:251-271 | The scenario loop returns the records of the grid. After a full sweep the clone stands at its attributes updated with every assignment. |
| WhatIf.RecordsMeaning | src/whatif/whatif.py:251-269 | One record per assignment in grid order. Record `i` has number `i`, holds assignment `i` as its scenario values, and holds the outputs evaluated at the base overridden by assignment `i`. It is `Raised` exactly when some output call raises. |
| WhatIf.Model.Simulate | src/whatif/whatif.py:229-290 | With scenario inputs: the records of the grid over the caller's attributes updated with the random inputs. Without them: one record numbered 0 with no scenario values. `scenario_base_vals` is the clone's dictionary exactly when `keep_random_inputs`, and it then ends at the last scenario's attributes. The caller is not written. |
| WhatIf.GetSimResultsDf | src/whatif/whatif.py:41-54 | The rows are the records' frames concatenated in record order (a single frame is returned as it is). An empty list or an output set pandas rejects raises. |
| WhatIf.FramesMeaning | src/whatif/whatif.py:42-48 | The frames exist exactly when every record's outputs are accepted, and then frame `i` is the frame of record `i`. |
| WhatIf.FrameLength | src/whatif/whatif.py:43 | The row count `pd.DataFrame(output)` gives, or None when pandas raises. Every output fits a row count it gives. |
| WhatIf.RecordFrame | src/whatif/whatif.py:43-46 | A record's frame after the `scenario_num` and scenario-value columns are set has as many rows as its outputs have replications. |
| WhatIf.FrameLengthMeaning | src/whatif/whatif.py:43 | `pd.DataFrame(output)` is accepted exactly when there are no outputs or some array fits every output. The row count is then that array's length. |
| WhatIf.FrameLengthBy | src/whatif/whatif.py:43 | Any array output fixes the row count: its length when every output fits it, and otherwise pandas raises. |
| WhatIf.RecordFrameRow | src/whatif/whatif.py:43-46 | A record's frame row has the outputs, `scenario_num` and the scenario keys as its columns. A scenario value overwrites a column of the same name, and each output shows its cell for that row. |
| WhatIf.DfRowOfRecord | src/whatif/whatif.py:41-54 | Row `j` of record `i` sits in the flattened rows after the rows of the records before it. It carries record `i`'s `scenario_num` and scenario values. |
| WhatIf.DfLength | src/whatif/whatif.py:50-54 | The flattened rows number the sum of the records' row counts. |
| WhatIf.ConcatAt | src/whatif/whatif.py:51 | `pd.concat` puts row `j` of frame `i` after all rows of the frames before it. |
| Bookstore.OrderCost | examples/BookstoreModel.py:38-40 | An order of nothing costs nothing, and non-negative cost and quantity give a non-negative cost. |
| Bookstore.NumSold | examples/BookstoreModel.py:47 | The number sold is at most the order quantity and at most the demand, and equals one of them. |
| Bookstore.NumUnsold | examples/BookstoreModel.py:58 | The number unsold is non-negative and at least `order_quantity - demand`, and equals one of them. |
| Bookstore.SalesRevenue | examples/BookstoreModel.py:49-51 | The price on every ordered item when demand covers the order, and on every demanded item otherwise. |
| Bookstore.RefundRevenue | examples/BookstoreModel.py:60-62 | Nothing when demand covers the order, and the refund on every unsold item otherwise. |
| Bookstore.TotalRevenue | examples/BookstoreModel.py:64-66 | Sales plus refunds in the two demand regimes: the price on the whole order, or the price on the demand plus the refund on the rest. |
| Bookstore.Profit | examples/BookstoreModel.py:68-71 | Profit in closed form: a sell-out earns the margin on every item; a shortfall earns the price on what is sold and the refund on the rest, less the order cost. |
| Bookstore.SoldPlusUnsold | examples/BookstoreModel.py:47-58 | Sold plus unsold is the order quantity. |
| Bookstore.DemandCoversOrder | examples/BookstoreModel.py:47-62 | When demand covers the order, everything is sold and nothing is refunded. |
| Bookstore.ProfitIsRevenueLessCost | examples/BookstoreModel.py:64-71 | Profit is total revenue less order cost. |
| Bookstore.ProfitMonotoneInDemand | examples/BookstoreModel.py:42-71 | With a refund no larger than the price, more demand never lowers profit. |
| Bookstore.DefaultProfit | examples/BookstoreModel.py:30-71 | The default bookstore sells 193, has 7 left and earns 447.5. |
| Bookstore.Lift | examples/BookstoreModel.py:40-70 | numpy arithmetic: numbers combine as numbers; equal-length arrays combine element by element; a number, or an array of length 1, is combined with every element of the other array; arrays of other lengths (neither of length 1) raise. |
| Bookstore.AttrOrderCost | examples/BookstoreModel.py:38-40 | `order_cost` on attributes under numpy arithmetic; it raises unless `unit_cost` and `order_quantity` are set. |
| Bookstore.AttrNumSold | examples/BookstoreModel.py:42-47 | `num_sold` under numpy arithmetic; it raises unless `order_quantity` and `demand` are set. |
| Bookstore.AttrSalesRevenue | examples/BookstoreModel.py:49-51 | `sales_revenue` under numpy arithmetic; it raises unless `order_quantity`, `demand` and `selling_price` are set, and when an attribute `num_sold` hides the method it calls. |
| Bookstore.AttrNumUnsold | examples/BookstoreModel.py:53-58 | `num_unsold` under numpy arithmetic; it raises unless `order_quantity` and `demand` are set. |
| Bookstore.AttrRefundRevenue | examples/BookstoreModel.py:60-62 | `refund_revenue` under numpy arithmetic; it raises unless `order_quantity`, `demand` and `unit_refund` are set, and when an attribute `num_unsold` hides the method it calls. |
| Bookstore.AttrTotalRevenue | examples/BookstoreModel.py:64-66 | `total_revenue` under numpy arithmetic; it raises unless the four attributes it reads are set, and when an attribute hides `sales_revenue`, `refund_revenue`, `num_sold` or `num_unsold`. |
| Bookstore.AttrProfit | examples/BookstoreModel.py:68-71 | `profit` under numpy arithmetic; it raises unless all five inputs are set, and when an attribute hides any of the other six outputs it calls directly or through them. |
| Bookstore.Invoke | src/whatif/whatif.py:103 | `getattr(model, name)()` on a bookstore: it raises for a name that is not one of the seven outputs, and for a name that an attribute hides (calling a number or an array raises); an output that calls a hidden output raises too. |
| Bookstore.Call | examples/BookstoreModel.py:51 | `self.<name>()` inside an output: it yields the method's value exactly when no attribute of that name hides the method. |
| Bookstore.HiddenInnerOutputRaises | examples/BookstoreModel.py:68-71 | `profit` raises once an attribute `num_sold` is set, and so does a goal-seek objective for `profit` evaluated by setting `order_cost` over the method it calls. |
| Bookstore.NewBookstore | examples/BookstoreModel.py:30-36 | `BookstoreModel(...)`: a fresh model whose five attributes are the given numeric inputs and whose output methods are the bookstore's (array-valued arguments are not taken; see Left out). |
| Bookstore.ScalarOutputs | examples/BookstoreModel.py:38-71 | On numeric attributes, every output method yields the number its formula gives. |
| Bookstore.ArrayOutputs | examples/BookstoreModel.py:38-71 | On attributes that are arrays of replications, every output method yields the array of its formula on each replication. |

## Left out

- `data_table` returns `pd.DataFrame(results)`. The model returns the list
  of row dictionaries. Column order, the index and pandas' filling of
  missing cells are not modelled.
- `get_sim_results_df` works with rows as dictionaries. A column that
  `df[key] = val` sets from an array is modelled as one value repeated down
  the column. pandas' index, column order and dtypes are not modelled.
- Floating point: the model uses exact reals. Goal seek's `==` test and
  products that underflow behave as with exact arithmetic, and `N`
  halvings never lose precision.
- `copy.deepcopy`, `copy.copy`, `getattr` and `setattr` are reflection. The
  clone is a fresh `Model` holding the same attribute dictionary, and
  output methods are the `invoke` function of the attributes. Outputs that
  write attributes, or that read anything but attributes, are not modelled.
  An attribute that hides an output method of the same name makes the call
  raise, whether the driver calls it or another output does; the concrete
  model's `invoke` says so, as `Bookstore.Invoke` does.
- The exception an output raises is not modelled by type. `Raised` ends the
  driver, and the model says where it can happen.
- Goal seek with a non-number result: an objective that yields an array of
  more than one element, another non-number, or nothing makes the model's
  `F` undefined. The model then raises, where Python may raise a different
  error.
- The source's default arguments are passed explicitly: `goal_seek`'s
  `N=100` is the `n` of `WhatIf.Model.GoalSeek`, and `simulate`'s
  `scenario_inputs=None` and `keep_random_inputs=False` are `None` and
  `false` for `WhatIf.Model.Simulate`.
- `WhatIf.Model.Simulate`: the final attributes of `scenario_base_vals` are
  stated only for a run that returns records. A run that raises
  part-way leaves the clone at some scenario, which the model does not
  describe.
- `Model.model_to_df` and `Model.__str__` are not modelled: one is a numpy
  stacking helper that returns nothing, the other formats text.
- `examples/new_car_simulation.py` and `setup.py` are not part of this
  model: the first is numpy floating-point simulation code calling a
  foreign library, the second is packaging metadata.
- `BookstoreModel.__init__` is modelled as `Bookstore.NewBookstore` with an
  `Inputs` value, and its defaults as `Bookstore.Defaults`. Integer and
  float inputs are both reals. It takes numbers only, not the array-like
  arguments the constructor also accepts; a bookstore holding arrays of
  replications is built with `WhatIf.Model`'s constructor over
  `Bookstore.ArrayAttrs`.
