/** Values shared by the simulator and the dashboard: the dictionary-shaped
    telemetry documents the simulator writes and the flat rows the dashboard
    reads back, plus the usual Option and Result wrappers. */
module Records {

  datatype Option<+T> = None | Some(value: T) {
    predicate IsFailure() { None? }

    function PropagateFailure<U>(): Option<U>
      requires None?
    {
      None
    }

    function Extract(): T
      requires Some?
    {
      value
    }
  }

  datatype Result<+T, +E> = Success(value: T) | Failure(error: E)

  /** A leaf value of a stored document: Python's None, str, int or float. */
  datatype Scalar = Null | Str(s: string) | Int(i: int) | Num(x: real)

  /** A top-level entry of a document: a leaf, or a nested dictionary of leaves
      (the telemetry record nests exactly one level deep). */
  datatype Field = Leaf(scalar: Scalar) | Nested(fields: map<string, Scalar>)

  /** A stored document, and a row of the dashboard's table: both are
      dictionaries from key to field. */
  type Doc = map<string, Field>
  type Row = map<string, Field>

  /** Python's dict.get(key): the value under the key, or None when absent. */
  function Get(m: map<string, Scalar>, key: string): (v: Scalar)
    ensures key !in m ==> v == Null
    ensures key in m ==> v == m[key]
  {
    if key in m then m[key] else Null
  }

  /** An optional text as it is stored: None becomes null. */
  function OptionalText(o: Option<string>): (v: Scalar)
    ensures o.None? <==> v == Null
    ensures o.Some? ==> v == Str(o.value)
  {
    match o
    case None => Null
    case Some(t) => Str(t)
  }
}
