/** The Python values that `json.loads` produces for a Tempest datagram, and the
    handful of Python operations the decoders apply to them: subscripting a
    dictionary by key, indexing a list by position, `len`, and the numeric
    coercions `float()`, `int()` and `datetime.fromtimestamp()`.
    A failing operation yields the Python exception class it would raise. */
module PyJson {

  /** A decoded JSON value: None, a bool, a number (int or float), a string,
      a list or a dictionary. */
  datatype Json =
    | Null
    | Bool(b: bool)
    | Num(n: real)
    | Str(s: string)
    | Arr(items: seq<Json>)
    | Obj(fields: map<string, Json>)

  /** The Python exception classes the decoding layer can raise. */
  datatype Error = KeyError | IndexError | TypeError | ValueError | AssertionError

  datatype Option<+T> = None | Some(value: T)

  /** Either the value computed or the exception raised; usable with `:-`. */
  datatype Result<+T> = Ok(value: T) | Err(error: Error) {
    predicate IsFailure() { Err? }

    function PropagateFailure<U>(): Result<U>
      requires Err?
    {
      Err(error)
    }

    function Extract(): T
      requires Ok?
    {
      value
    }
  }

  /** The number a value stands for in Python arithmetic and comparisons:
      numbers themselves, and booleans, which Python treats as 0 and 1. */
  function NumericValue(j: Json): (r: Option<real>)
    ensures r.Some? <==> j.Num? || j.Bool?
    ensures j.Num? ==> r == Some(j.n)
    ensures j.Bool? ==> (r == Some(1.0) <==> j.b) && (r == Some(0.0) <==> !j.b)
  {
    match j
    case Num(n) => Some(n)
    case Bool(b) => Some(if b then 1.0 else 0.0)
    case _ => None
  }

  /** `j[key]` for a string key. */
  function Subscript(j: Json, key: string): (r: Result<Json>)
    ensures r.Ok? <==> j.Obj? && key in j.fields
    ensures r.Ok? ==> r.value == j.fields[key]
    ensures r == Err(KeyError) <==> j.Obj? && key !in j.fields
    ensures r == Err(TypeError) <==> !j.Obj?
  {
    match j
    case Obj(m) => if key in m then Ok(m[key]) else Err(KeyError)
    case _ => Err(TypeError)
  }

  /** `j[i]` for a non-negative integer index: lists and strings are indexed
      by position, a dictionary has no integer keys (JSON keys are strings),
      and no other value is subscriptable. */
  function Index(j: Json, i: nat): (r: Result<Json>)
    ensures r.Ok? <==> (j.Arr? && i < |j.items|) || (j.Str? && i < |j.s|)
    ensures j.Arr? && i < |j.items| ==> r == Ok(j.items[i])
    ensures j.Str? && i < |j.s| ==> r == Ok(Str([j.s[i]]))
    ensures r == Err(IndexError) <==> (j.Arr? && |j.items| <= i) || (j.Str? && |j.s| <= i)
    ensures r == Err(KeyError) <==> j.Obj?
    ensures r == Err(TypeError) <==> j.Null? || j.Bool? || j.Num?
  {
    match j
    case Arr(s) => if i < |s| then Ok(s[i]) else Err(IndexError)
    case Str(s) => if i < |s| then Ok(Str([s[i]])) else Err(IndexError)
    case Obj(_) => Err(KeyError)
    case _ => Err(TypeError)
  }

  /** `len(j)`. */
  function Length(j: Json): (r: Result<nat>)
    ensures r.Ok? <==> j.Arr? || j.Str? || j.Obj?
    ensures j.Arr? ==> r == Ok(|j.items|)
    ensures j.Str? ==> r == Ok(|j.s|)
    ensures j.Obj? ==> r == Ok(|j.fields|)
    ensures r.Err? ==> r.error == TypeError
  {
    match j
    case Arr(s) => Ok(|s|)
    case Str(s) => Ok(|s|)
    case Obj(m) => Ok(|m|)
    case _ => Err(TypeError)
  }

  /** Python's `int()` on a float: truncation toward zero. */
  function Trunc(x: real): (r: int)
    ensures 0.0 <= x ==> r as real <= x < r as real + 1.0
    ensures x < 0.0 ==> r as real - 1.0 < x <= r as real
  {
    if x >= 0.0 then x.Floor else -((-x).Floor)
  }

  /** `int()` leaves a whole number unchanged. */
  lemma TruncWhole(n: int)
    ensures Trunc(n as real) == n
  {
  }

  /** `float(j)`: numbers and booleans convert; a string raises ValueError,
      None, a list or a dictionary raises TypeError. */
  function Float(j: Json): (r: Result<real>)
    ensures r.Ok? <==> NumericValue(j).Some?
    ensures r.Ok? ==> r.value == NumericValue(j).value
    ensures r.Err? ==> r.error == (if j.Str? then ValueError else TypeError)
  {
    match NumericValue(j)
    case Some(x) => Ok(x)
    case None => if j.Str? then Err(ValueError) else Err(TypeError)
  }

  /** `int(j)`: like `float(j)`, then truncated toward zero. */
  function Int(j: Json): (r: Result<int>)
    ensures r.Ok? <==> NumericValue(j).Some?
    ensures r.Ok? && 0.0 <= NumericValue(j).value ==> r.value as real <= NumericValue(j).value < r.value as real + 1.0
    ensures r.Ok? && NumericValue(j).value < 0.0 ==> r.value as real - 1.0 < NumericValue(j).value <= r.value as real
    ensures r.Err? ==> r.error == (if j.Str? then ValueError else TypeError)
  {
    var x :- Float(j);
    Ok(Trunc(x))
  }

  /** `datetime.datetime.fromtimestamp(j)`, kept as the epoch-seconds number:
      it accepts numbers (and booleans) only and raises TypeError otherwise. */
  function Timestamp(j: Json): (r: Result<real>)
    ensures r.Ok? <==> NumericValue(j).Some?
    ensures r.Ok? ==> r.value == NumericValue(j).value
    ensures r.Err? ==> r.error == TypeError
  {
    match NumericValue(j)
    case Some(x) => Ok(x)
    case None => Err(TypeError)
  }
}
