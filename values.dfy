/** JavaScript values as the option bag carries them, JavaScript truthiness,
    and the `orOr` fallback helper of index.js. */
module Values {

  datatype Option<T> = None | Some(value: T)

  datatype Result<T, E> = Ok(value: T) | Err(error: E)

  /** The JavaScript values an option can hold. `Num` is an exact real:
      floating point is not modelled. */
  datatype JsValue =
    | Undefined
    | Null
    | Bool(b: bool)
    | Num(n: real)
    | Str(s: string)

  /** `v !== undefined && v !== null` */
  predicate Defined(v: JsValue) {
    !v.Undefined? && !v.Null?
  }

  /** JavaScript truthiness: `undefined`, `null`, `false`, `0` and `""` are
      falsy, everything else is truthy (NaN cannot occur in this model). */
  predicate Truthy(v: JsValue) {
    match v
    case Undefined => false
    case Null => false
    case Bool(b) => b
    case Num(n) => n != 0.0
    case Str(s) => s != ""
  }

  /** No argument before position `i` is defined. */
  predicate NoneDefinedBefore(args: seq<JsValue>, i: int)
    requires 0 <= i <= |args|
  {
    forall j :: 0 <= j < i ==> !Defined(args[j])
  }

  /** `orOr(...args)`: the first argument that is neither `undefined` nor
      `null`; when there is none, the last argument itself (so `undefined`
      for an empty argument list, as `arguments[-1]` is). */
  function OrOr(args: seq<JsValue>): (r: JsValue)
    ensures forall i {:trigger NoneDefinedBefore(args, i)} ::
      0 <= i < |args| && Defined(args[i]) && NoneDefinedBefore(args, i) ==> r == args[i]
    ensures NoneDefinedBefore(args, |args|) ==> r == if |args| == 0 then Undefined else args[|args| - 1]
    decreases |args|
  {
    if |args| == 0 then Undefined
    else if Defined(args[0]) || |args| == 1 then args[0]
    else
      var rest := args[1..];
      assert forall i :: 1 <= i <= |args| && NoneDefinedBefore(args, i) ==> NoneDefinedBefore(rest, i - 1);
      OrOr(rest)
  }

  /** The `for (const arg of arguments)` scan of `orOr`, step by step. */
  method OrOrScan(args: seq<JsValue>) returns (r: JsValue)
    ensures r == OrOr(args)
  {
    var k := 0;
    while k < |args|
      invariant 0 <= k <= |args|
      invariant NoneDefinedBefore(args, k)
    {
      if Defined(args[k]) {
        return args[k];
      }
      k := k + 1;
    }
    r := if |args| == 0 then Undefined else args[|args| - 1];
  }
}
