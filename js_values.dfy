/**
 * The part of the JavaScript value universe that the renderer inspects:
 * render contexts, template exports, template output and the doctype.
 */
module JsValues {

  datatype Option<+T> = None | Some(value: T) {
    /** The wrapped value, or `default` when there is none. */
    function GetOr(default: T): T {
      match this
      case Some(v) => v
      case None => default
    }
  }

  /**
   * A JavaScript value. Numbers are restricted to integers; a function value
   * is known by its source text, which is what converting it to a string yields.
   */
  datatype Value =
    | Undefined
    | Null
    | Bool(b: bool)
    | Num(n: int)
    | Str(s: string)
    | Obj(fields: map<string, Value>)
    | Arr(items: seq<Value>)
    | Func(source: string)

  /** A plain object used as a render context: its own enumerable properties. */
  type Context = map<string, Value>

  /** The way a call into foreign code ends: with a value, or by throwing one. */
  datatype Completion = Normal(value: Value) | Throw(exception: Value)

  /** ECMAScript ToBoolean: undefined, null, false, 0 and "" are the falsy values. */
  predicate Truthy(v: Value) {
    match v
    case Undefined => false
    case Null => false
    case Bool(b) => b
    case Num(n) => n != 0
    case Str(s) => s != ""
    case _ => true
  }

  /** Property read `c[key]`: a missing property reads as undefined. */
  function Get(c: Context, key: string): Value {
    if key in c then c[key] else Undefined
  }

  /** The decimal digits of a natural number, most significant first. */
  function NatToDecimal(n: nat): (r: string)
    ensures r != []
    ensures forall i :: 0 <= i < |r| ==> '0' <= r[i] <= '9'
  {
    var digit := ['0' + (n % 10) as char];
    if n < 10 then digit else NatToDecimal(n / 10) + digit
  }

  /** `parts` joined with commas, as Array.prototype.join does by default. */
  function JoinWithCommas(parts: seq<string>): (r: string)
    ensures parts == [] ==> r == ""
    ensures |parts| == 1 ==> r == parts[0]
  {
    if parts == [] then ""
    else if |parts| == 1 then parts[0]
    else JoinWithCommas(parts[..|parts| - 1]) + "," + parts[|parts| - 1]
  }

  /**
   * ECMAScript ToString, as a template literal applies it to an interpolated value.
   * A plain object yields "[object Object]"; an array joins its elements with
   * commas, an undefined or null element contributing the empty string.
   */
  function ToJsString(v: Value): string {
    match v
    case Undefined => "undefined"
    case Null => "null"
    case Bool(b) => if b then "true" else "false"
    case Num(n) => if n < 0 then "-" + NatToDecimal(-n) else NatToDecimal(n)
    case Str(s) => s
    case Obj(_) => "[object Object]"
    case Arr(items) =>
      JoinWithCommas(seq(|items|, i requires 0 <= i < |items| =>
        if items[i].Undefined? || items[i].Null? then "" else ToJsString(items[i])))
    case Func(source) => source
  }

  /**
   * Object.assign(target, source) on plain objects: every own property of
   * `source` is copied over `target`; an undefined source (None) copies nothing.
   */
  function Assign(target: Context, source: Option<Context>): (r: Context)
    ensures source.None? ==> r == target
    ensures source.Some? ==> r.Keys == target.Keys + source.value.Keys
    ensures source.Some? ==> forall k :: k in source.value ==> r[k] == source.value[k]
    ensures forall k :: k in target && (source.None? || k !in source.value) ==> k in r && r[k] == target[k]
  {
    match source
    case None => target
    case Some(s) => target + s
  }

  /**
   * Object.assign({}, a, b): a fresh object in which `b`'s properties win,
   * `a`'s fill the rest, and no other property appears; neither argument is
   * changed.
   */
  function AssignFresh(a: Context, b: Option<Context>): (r: Context)
    ensures forall k :: k in r <==> k in a || (b.Some? && k in b.value)
    ensures forall k :: b.Some? && k in b.value ==> r[k] == b.value[k]
    ensures forall k :: k in a && (b.None? || k !in b.value) ==> r[k] == a[k]
  {
    Assign(Assign(map[], Some(a)), b)
  }
}
