/** JavaScript values as a parsed JSON request body delivers them, and the three
    operations of the language that the webhook route applies to them: the
    truthiness test of `!x` and `x && …`, `Array.prototype.includes` over the
    values of a string enum, and `Array.prototype.join`. */
module Js {

  datatype Option<+T> = None | Some(value: T)

  /** A value of a JSON document as `JSON.parse` returns it. An object field
      that is `undefined` (absent) is `None` of an `Option<Json>`. `JNum`
      holds the number after parsing, so a literal that underflows, such as
      `1e-400`, is `JNum(0.0)`. */
  datatype Json =
    | JNull
    | JBool(b: bool)
    | JNum(n: real)
    | JStr(s: string)
    | JArr(items: seq<Json>)
    | JObj(members: seq<(string, Json)>)

  /** The falsy values a parsed JSON document can hold. */
  const FalsyValues: set<Json> := {JNull, JBool(false), JNum(0.0), JStr("")}

  /** ToBoolean: every value is truthy except the falsy ones, so every
      non-empty string, non-zero number, array and object (even an empty
      one) is truthy. */
  predicate Truthy(v: Json) {
    match v
    case JNull => false
    case JBool(b) => b
    case JNum(n) => n != 0.0
    case JStr(s) => s != ""
    case JArr(_) => true
    case JObj(_) => true
  }

  /** Truthiness of an object field; `undefined` is falsy. */
  predicate TruthyField(f: Option<Json>) {
    f.Some? && Truthy(f.value)
  }

  /** `values.includes(v)` for an array of strings: SameValueZero never
      equates a string with a non-string, so only an equal string matches. */
  predicate Includes(values: seq<string>, v: Json) {
    v.JStr? && v.s in values
  }

  /** Whether the template literal `${v}` converts `v` to a string without
      throwing. An object converts through `Object.prototype.toString`
      unless it has a member named `toString` of its own: a JSON value is
      never callable, so the conversion then finds no method and throws a
      `TypeError`. An array converts its elements one by one. */
  predicate Stringable(v: Json) {
    match v
    case JArr(items) => forall i :: 0 <= i < |items| ==> Stringable(items[i])
    case JObj(members) => forall i :: 0 <= i < |members| ==> members[i].0 != "toString"
    case _ => true
  }

  /** Truthiness is exactly "not one of the falsy values". */
  lemma TruthyIsNotFalsy(v: Json)
    ensures Truthy(v) <==> v !in FalsyValues
  {
  }

  /** `includes` holds exactly for a string equal to one of the values. */
  lemma IncludesIsListed(values: seq<string>, v: Json)
    ensures Includes(values, v) <==> exists i :: 0 <= i < |values| && v == JStr(values[i])
  {
  }

  /** `undefined` converts to `"undefined"`. */
  predicate StringableField(f: Option<Json>) {
    f.None? || Stringable(f.value)
  }

  /** The message of the `TypeError` a failed conversion throws. */
  const ToPrimitiveError: string := "Cannot convert object to primitive value"

  /** `values.join(sep)`. */
  function Join(values: seq<string>, sep: string): string {
    if |values| == 0 then ""
    else if |values| == 1 then values[0]
    else values[0] + sep + Join(values[1..], sep)
  }

  /** Where the `i`-th value starts in `Join(values, sep)`: the lengths of the
      values before it, each followed by one separator. */
  function Offset(values: seq<string>, sep: string, i: nat): nat
    requires i <= |values|
  {
    if i == 0 then 0 else |values[0]| + |sep| + Offset(values[1..], sep, i - 1)
  }

  /** The offset of the next value is one value and one separator further on. */
  lemma {:induction false} OffsetNext(values: seq<string>, sep: string, i: nat)
    requires i < |values|
    ensures Offset(values, sep, i + 1) == Offset(values, sep, i) + |values[i]| + |sep|
  {
    if i > 0 {
      OffsetNext(values[1..], sep, i - 1);
      assert values[1..][i - 1] == values[i];
    }
  }

  /** A slice of `a + b` that lies inside `b`. */
  lemma SliceOfAppend(a: string, b: string, lo: nat, hi: nat)
    requires |a| <= lo <= hi <= |a| + |b|
    ensures (a + b)[lo..hi] == b[lo - |a|..hi - |a|]
  {
  }

  /** The joined string holds `values[i]` at `Offset(values, sep, i)`. */
  lemma {:induction false} JoinAt(values: seq<string>, sep: string, i: nat)
    requires i < |values|
    ensures Offset(values, sep, i) + |values[i]| <= |Join(values, sep)|
    ensures Join(values, sep)[Offset(values, sep, i)..Offset(values, sep, i) + |values[i]|] == values[i]
  {
    if |values| == 1 {
    } else if i == 0 {
      assert Join(values, sep) == values[0] + (sep + Join(values[1..], sep));
    } else {
      var head := values[0] + sep;
      var tail := Join(values[1..], sep);
      assert Join(values, sep) == head + tail;
      JoinAt(values[1..], sep, i - 1);
      var o := Offset(values[1..], sep, i - 1);
      assert values[1..][i - 1] == values[i];
      SliceOfAppend(head, tail, |head| + o, |head| + o + |values[i]|);
    }
  }

  /** A separator follows every value but the last. */
  lemma {:induction false} JoinSeparatorAt(values: seq<string>, sep: string, i: nat)
    requires i + 1 < |values|
    ensures Offset(values, sep, i) + |values[i]| + |sep| <= |Join(values, sep)|
    ensures Join(values, sep)[Offset(values, sep, i) + |values[i]|..Offset(values, sep, i) + |values[i]| + |sep|] == sep
  {
    var head := values[0] + sep;
    var tail := Join(values[1..], sep);
    assert Join(values, sep) == head + tail;
    if i == 0 {
      assert (head + tail)[|values[0]|..|head|] == sep;
    } else {
      JoinSeparatorAt(values[1..], sep, i - 1);
      assert values[1..][i - 1] == values[i];
      var o := Offset(values[1..], sep, i - 1);
      assert Offset(values, sep, i) == |head| + o;
      SliceOfAppend(head, tail, |head| + o + |values[i]|, |head| + o + |values[i]| + |sep|);
    }
  }

  /** `join` of no values is `""`; otherwise the joined string starts with the
      first value and ends with the last. */
  lemma {:induction false} JoinEnds(values: seq<string>, sep: string)
    ensures values == [] ==> Join(values, sep) == ""
    ensures values != [] ==>
              |values[0]| <= |Join(values, sep)| && Join(values, sep)[..|values[0]|] == values[0] &&
              |values[|values| - 1]| <= |Join(values, sep)| &&
              Join(values, sep)[|Join(values, sep)| - |values[|values| - 1]|..] == values[|values| - 1]
  {
    if |values| > 1 {
      JoinEnds(values[1..], sep);
      var head := values[0] + sep;
      var tail := Join(values[1..], sep);
      var last := values[|values| - 1];
      assert values[1..][|values| - 2] == last;
      assert Join(values, sep) == head + tail;
      assert (head + tail)[|head + tail| - |last|..] == tail[|tail| - |last|..];
      assert (head + tail)[..|values[0]|] == values[0];
    }
  }

  /** The joined string ends right after the last value: together with
      `JoinAt`, every character of it is a value or a separator. */
  lemma {:induction false} JoinLength(values: seq<string>, sep: string)
    requires |values| > 0
    ensures |Join(values, sep)| == Offset(values, sep, |values| - 1) + |values[|values| - 1]|
  {
    if |values| > 1 {
      JoinLength(values[1..], sep);
      assert values[1..][|values| - 2] == values[|values| - 1];
    }
  }
}
