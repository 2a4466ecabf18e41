/** Shared vocabulary of the what-if engine: attribute values, attribute
    dictionaries, and the two outcome types used by the drivers. */
module Values {

  /** What a model attribute or an output operation holds: a number, or a
      one-dimensional array of numbers (a column of simulation replications). */
  datatype Value = Scalar(x: real) | Vec(xs: seq<real>)

  /** The attribute dictionary of a model object (its `vars()`), and also the
      shape of one scenario assignment and of one result row. */
  type Attrs = map<string, Value>

  datatype Option<T> = None | Some(value: T)

  /** Outcome of a driver: `Raised` stands for an exception that escapes from
      an output operation (an unknown name, a missing attribute, an array shape
      mismatch) and ends the driver without a result. */
  datatype Result<T> = Ok(value: T) | Raised

  /** The real a scalar-valued output yields in an arithmetic test: a scalar,
      or an array of exactly one element (whose truth value numpy defines). */
  function AsReal(v: Value): (r: Option<real>)
    ensures r.Some? <==> (v.Scalar? || |v.xs| == 1)
    ensures v.Scalar? ==> r == Some(v.x)
  {
    match v
    case Scalar(x) => Some(x)
    case Vec(xs) => if |xs| == 1 then Some(xs[0]) else None
  }

  /** The number an output call yields for an arithmetic test, or None when
      the call raised or returned something that is not a single number. */
  function ToNumber(o: Option<Value>): (r: Option<real>)
    ensures r.Some? ==> o.Some? && AsReal(o.value) == r
  {
    match o
    case None => None
    case Some(v) => AsReal(v)
  }
}
