/**
  JSON values as the handlers see them once the request body is parsed, and
  the few JavaScript operations the handlers apply to them: reading a field
  (absent reads as `undefined`), truthiness (`!x`, `x || d`), conversion to
  text inside a template string, and object spread (`...x`).
*/
module JsValue {
  import opened Outcomes
  import Decimal

  /** A JSON value; numbers are integers in this model. */
  datatype Value =
    | Null
    | Bool(b: bool)
    | Num(n: int)
    | Str(s: string)
    | Arr(elems: seq<Value>)
    | Obj(fields: map<string, Value>)

  const EmptyObject: Value := Obj(map[])

  /** Reading `o.key`: `None` is `undefined`, the value of a missing key. */
  function Field(o: map<string, Value>, key: string): Option<Value> {
    if key in o then Some(o[key]) else None
  }

  /** JavaScript's ToBoolean on a JSON value. */
  predicate Truthy(v: Value) {
    match v
    case Null => false
    case Bool(b) => b
    case Num(n) => n != 0
    case Str(s) => s != ""
    case Arr(_) => true
    case Obj(_) => true
  }

  /** The falsy JSON values are exactly null, false, 0 and the empty string. */
  lemma FalsyValues(v: Value)
    ensures !Truthy(v) <==> v in {Null, Bool(false), Num(0), Str("")}
  {
  }

  /** ToBoolean on a field read; `undefined` is falsy. `!x` is its negation. */
  predicate IsTruthy(f: Option<Value>) {
    f.Some? && Truthy(f.value)
  }

  /** A destructuring default `{ x = d } = o`: `d` replaces `undefined` only. */
  function OrDefault(f: Option<Value>, d: Value): Value {
    if f.Some? then f.value else d
  }

  /** The expression `x || d`: `d` replaces every falsy value. */
  function OrElse(f: Option<Value>, d: Value): Value {
    if IsTruthy(f) then f.value else d
  }

  /** Joins texts with commas, as `Array.prototype.join` does by default. */
  function JoinWithCommas(parts: seq<string>): string {
    if parts == [] then ""
    else if |parts| == 1 then parts[0]
    else parts[0] + "," + JoinWithCommas(parts[1..])
  }

  /** The message V8 gives the TypeError thrown when String(v) finds no usable `toString`. */
  const NoPrimitiveMessage := "Cannot convert object to primitive value"

  /**
    Whether String(v) returns rather than throws. A JSON object with an own
    "toString" key hides the inherited method behind a value that cannot be
    called, and its inherited `valueOf` gives back the object itself, so the
    conversion throws a TypeError; an array throws when one of its elements does.
  */
  predicate HasText(v: Value)
    ensures v.Null? || v.Bool? || v.Num? || v.Str? ==> HasText(v)
    ensures v.Obj? ==> (HasText(v) <==> "toString" !in v.fields)
    ensures v.Arr? ==> (HasText(v) <==> forall i :: 0 <= i < |v.elems| ==> HasText(v.elems[i]))
    decreases v
  {
    match v
    case Obj(fields) => "toString" !in fields
    case Arr(xs) => forall i :: 0 <= i < |xs| ==> HasText(xs[i])
    case _ => true
  }

  /**
    JavaScript's String(v), which a template string applies to each
    substituted value: `null` elements of an array join as empty text and
    every other object shows as "[object Object]".
  */
  function ToText(v: Value): (text: string)
    requires HasText(v)
    ensures v.Str? ==> text == v.s
    ensures v.Num? ==> text == Decimal.IntToDecimal(v.n)
    ensures v.Null? ==> text == "null"
    ensures v.Bool? ==> text == (if v.b then "true" else "false")
    ensures v.Obj? ==> text == "[object Object]"
    ensures v == Arr([]) ==> text == ""
    decreases v
  {
    match v
    case Null => "null"
    case Bool(b) => if b then "true" else "false"
    case Num(n) => Decimal.IntToDecimal(n)
    case Str(s) => s
    case Arr(xs) =>
      JoinWithCommas(seq(|xs|, i requires 0 <= i < |xs| && HasText(xs[i]) => if xs[i].Null? then "" else ToText(xs[i])))
    case Obj(_) => "[object Object]"
  }

  /**
    A one-element array converts as its element does, and a one-element array
    holding null as the empty text: `${["agent"]}` is "agent".
  */
  lemma SingletonArrayText(x: Value)
    requires HasText(x)
    ensures HasText(Arr([x]))
    ensures ToText(Arr([x])) == if x.Null? then "" else ToText(x)
  {
    var parts := seq(1, i requires 0 <= i < 1 && HasText([x][i]) => if [x][i].Null? then "" else ToText([x][i]));
    assert parts == [if x.Null? then "" else ToText(x)];
  }

  /**
    Two or more elements are joined with commas: `${["a", null, 7]}` is "a,,7".
  */
  lemma ArrayTextExample()
    ensures ToText(Arr([Str("a"), Null, Num(7)])) == "a,,7"
  {
    var xs := [Str("a"), Null, Num(7)];
    var parts := seq(|xs|, i requires 0 <= i < |xs| && HasText(xs[i]) => if xs[i].Null? then "" else ToText(xs[i]));
    assert Decimal.IntToDecimal(7) == "7";
    assert parts == ["a", "", "7"];
    assert JoinWithCommas(["a", "", "7"]) == "a" + "," + JoinWithCommas(["", "7"]);
    assert JoinWithCommas(["", "7"]) == "" + "," + JoinWithCommas(["7"]);
  }

  /** The property names `"0"`, `"1"`, ... of the first `n` indices. */
  function IndexKeys(n: nat): set<string> {
    set i | 0 <= i < n :: Decimal.NatToDecimal(i)
  }

  /** Index-keyed entries `{"0": xs[0], "1": xs[1], ...}`. */
  function IndexEntries(xs: seq<Value>): (m: map<string, Value>)
    ensures m.Keys == IndexKeys(|xs|)
    ensures forall i :: 0 <= i < |xs| ==> m[Decimal.NatToDecimal(i)] == xs[i]
  {
    assert forall i: nat, j: nat :: Decimal.NatToDecimal(i) == Decimal.NatToDecimal(j) ==> i == j by {
      forall i: nat, j: nat ensures Decimal.NatToDecimal(i) == Decimal.NatToDecimal(j) ==> i == j {
        Decimal.NatToDecimalInjective(i, j);
      }
    }
    map i | 0 <= i < |xs| :: Decimal.NatToDecimal(i) := xs[i]
  }

  /**
    The own enumerable properties that `{ ...v }` copies: an object's
    entries; an array's or a string's elements under their index names;
    nothing for `null`, booleans and numbers.
  */
  function Spread(v: Value): (m: map<string, Value>)
    ensures v.Obj? ==> m == v.fields
    ensures v.Arr? ==> m.Keys == IndexKeys(|v.elems|)
    ensures v.Arr? ==> forall i :: 0 <= i < |v.elems| ==> m[Decimal.NatToDecimal(i)] == v.elems[i]
    ensures v.Str? ==> m.Keys == IndexKeys(|v.s|)
    ensures v.Str? ==> forall i :: 0 <= i < |v.s| ==> m[Decimal.NatToDecimal(i)] == Str([v.s[i]])
    ensures v.Null? || v.Bool? || v.Num? ==> m == map[]
  {
    match v
    case Obj(fields) => fields
    case Arr(xs) => IndexEntries(xs)
    case Str(s) => IndexEntries(seq(|s|, i requires 0 <= i < |s| => Str([s[i]])))
    case _ => map[]
  }
}
