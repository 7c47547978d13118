/**
 * PHP values as they appear in configuration and option arrays, their string
 * conversion, `isset`/`??` lookups and the coercion PHP applies when such a
 * value is passed to a typed setter parameter (coercive typing mode, the
 * default when a file does not declare strict types).
 */
module PhpValues {
  import opened Wrappers
  import opened PhpStrings
  import opened PhpArrays
  import opened Errors

  datatype Value =
    | VNull
    | VBool(b: bool)
    | VInt(i: int)
    | VString(s: string)
    | VArray(entries: seq<(string, Value)>)

  /** Every array inside `v` has distinct keys, as every PHP array does. */
  predicate WellFormed(v: Value)
  {
    match v
    case VArray(es) => DistinctKeys(es) && forall i :: 0 <= i < |es| ==> WellFormed(es[i].1)
    case _ => true
  }

  predicate WellFormedEntries(es: Entries<Value>)
  {
    WellFormed(VArray(es))
  }

  /** String conversion, as in `'--' . $option . '=' . $value`. */
  function ToPhpString(v: Value): string
  {
    match v
    case VNull => ""
    case VBool(b) => if b then "1" else ""
    case VInt(i) => IntToString(i)
    case VString(s) => s
    case VArray(_) => "Array"
  }

  /** `$m[$k] ?? null`: the entry under `k`, unless it is absent or null. */
  function Lookup(m: Entries<Value>, k: string): (r: Option<Value>)
    ensures r.Some? <==> Get(m, k).Some? && !Get(m, k).value.VNull?
    ensures r.Some? ==> r.value == Get(m, k).value
  {
    match Get(m, k)
    case Some(v) => if v.VNull? then None else Some(v)
    case None => None
  }

  /** An argument passed to an `int` parameter. */
  function CoerceInt(parameter: string, v: Value): Result<int, Failure>
  {
    match v
    case VInt(i) => Ok(i)
    case VBool(b) => Ok(if b then 1 else 0)
    case VString(s) =>
      (match ParseInt(s)
       case Some(i) => Ok(i)
       case None => Err(TypeError(parameter)))
    case _ => Err(TypeError(parameter))
  }

  /** An argument passed to a `bool` parameter. */
  function CoerceBool(parameter: string, v: Value): Result<bool, Failure>
  {
    match v
    case VBool(b) => Ok(b)
    case VInt(i) => Ok(i != 0)
    case VString(s) => Ok(!IsFalsy(s))
    case _ => Err(TypeError(parameter))
  }

  /** An argument passed to a `string` parameter. */
  function CoerceString(parameter: string, v: Value): Result<string, Failure>
  {
    match v
    case VString(s) => Ok(s)
    case VInt(i) => Ok(IntToString(i))
    case VBool(b) => Ok(if b then "1" else "")
    case _ => Err(TypeError(parameter))
  }

  /**
   * Coercion never fails on a value of the parameter's own type, and an
   * integer written as a string, with or without a leading '+', reaches an
   * `int` parameter unchanged.
   */
  lemma CoercionAcceptsOwnType(parameter: string, i: int, b: bool, s: string)
    ensures CoerceInt(parameter, VInt(i)) == Ok(i)
    ensures CoerceInt(parameter, VString(IntToString(i))) == Ok(i)
    ensures CoerceBool(parameter, VBool(b)) == Ok(b)
    ensures CoerceString(parameter, VString(s)) == Ok(s)
    ensures CoerceString(parameter, VInt(i)) == Ok(IntToString(i))
    ensures i >= 0 ==> CoerceInt(parameter, VString("+" + IntToString(i))) == Ok(i)
  {
    ParseIntOfIntToString(i);
    if i >= 0 {
      ParseIntPlusSign(i);
    }
  }

  /** Only null and arrays fail every coercion. */
  lemma CoercionFailures(parameter: string, v: Value)
    ensures CoerceBool(parameter, v).Err? <==> v.VNull? || v.VArray?
    ensures CoerceString(parameter, v).Err? <==> v.VNull? || v.VArray?
    ensures (v.VNull? || v.VArray?) ==> CoerceInt(parameter, v) == Err(TypeError(parameter))
  {
  }
}
