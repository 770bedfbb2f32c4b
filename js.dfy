/**
 * The JavaScript values the handlers see: JSON request bodies and records,
 * `undefined` (an absent property, modelled as `None`), truthiness, and the
 * two string operations the middlewares rely on, `split` on one character
 * and `charAt(0)`.
 *
 * Numbers are integers here: the handlers never depend on fractions.
 */
module Js {
  import opened Wrappers

  /** A JSON value: what `express.json()` produces and `res.json` serialises. */
  datatype Json =
    | JNull
    | JBool(b: bool)
    | JNum(n: int)
    | JStr(s: string)
    | JArr(items: seq<Json>)
    | JObj(fields: map<string, Json>)

  /** JavaScript truthiness of a possibly-undefined value (`None` is `undefined`). */
  predicate Truthy(v: Option<Json>)
  {
    match v
    case None => false
    case Some(j) =>
      match j
      case JNull => false
      case JBool(b) => b
      case JNum(n) => n != 0
      case JStr(s) => s != ""
      case JArr(_) => true
      case JObj(_) => true
  }

  /** `obj[key]` on an object's fields, `undefined` when the key is absent. */
  function Get(fields: map<string, Json>, key: string): Option<Json>
  {
    if key in fields then Some(fields[key]) else None
  }

  /** The message V8 gives for reading a property of `undefined`. */
  function ReadOfUndefined(property: string): string
  {
    "Cannot read properties of undefined (reading '" + property + "')"
  }

  /** The message V8 gives for reading a property of `null`. */
  function ReadOfNull(property: string): string
  {
    "Cannot read properties of null (reading '" + property + "')"
  }

  /**
   * `v.key` on an arbitrary value: reading from `undefined` or `null` throws
   * a TypeError (its message is the failure), an object yields its field,
   * and every other value has no such own property.
   */
  function Prop(v: Option<Json>, key: string): (r: Result<Option<Json>, string>)
    ensures r.Failure? <==> (v.None? || v == Some(JNull))
    ensures v.Some? && v.value.JObj? ==> r == Success(Get(v.value.fields, key))
  {
    match v
    case None => Failure(ReadOfUndefined(key))
    case Some(JNull) => Failure(ReadOfNull(key))
    case Some(JObj(m)) => Success(Get(m, key))
    case Some(_) => Success(None)
  }

  // ---------------------------------------------------------------------
  // String.prototype.split with a one-character separator

  /**
   * `s.split(sep)`: the pieces between occurrences of `sep`. There is
   * always at least one piece (`"".split(" ")` is `[""]`) and no piece
   * contains the separator.
   */
  function Split(s: string, sep: char): (parts: seq<string>)
    ensures |parts| >= 1
    ensures forall i :: 0 <= i < |parts| ==> sep !in parts[i]
    ensures |parts| == 1 <==> sep !in s
    decreases |s|
  {
    if |s| == 0 then [""]
    else
      var rest := Split(s[1..], sep);
      if s[0] == sep then [""] + rest
      else [[s[0]] + rest[0]] + rest[1..]
  }

  /** `parts.join(sep)`, the inverse of `Split`. */
  function Join(parts: seq<string>, sep: char): string
    requires |parts| >= 1
    decreases |parts|
  {
    if |parts| == 1 then parts[0] else parts[0] + [sep] + Join(parts[1..], sep)
  }

  /** Joining the pieces of a split gives the original string back. */
  lemma {:induction false} JoinSplit(s: string, sep: char)
    ensures Join(Split(s, sep), sep) == s
    decreases |s|
  {
    if |s| > 0 {
      JoinSplit(s[1..], sep);
      var rest := Split(s[1..], sep);
      if s[0] == sep {
        assert Split(s, sep) == [""] + rest;
        assert ([""] + rest)[1..] == rest;
        assert s == [s[0]] + s[1..];
      } else {
        var parts := Split(s, sep);
        assert parts == [[s[0]] + rest[0]] + rest[1..];
        if |rest| == 1 {
          assert s == [s[0]] + s[1..];
        } else {
          assert parts[1..] == rest[1..];
          assert Join(rest, sep) == rest[0] + [sep] + Join(rest[1..], sep);
          assert s == [s[0]] + s[1..];
        }
      }
    }
  }

  /** A string free of the separator splits into itself alone. */
  lemma {:induction false} SplitWithoutSep(a: string, sep: char)
    requires sep !in a
    ensures Split(a, sep) == [a]
    decreases |a|
  {
    if |a| > 0 {
      assert sep !in a[1..];
      SplitWithoutSep(a[1..], sep);
      assert a == [a[0]] + a[1..];
    }
  }

  /** Splitting `a + sep + b` yields `a` followed by the pieces of `b`. */
  lemma {:induction false} SplitAtSep(a: string, b: string, sep: char)
    requires sep !in a
    ensures Split(a + [sep] + b, sep) == [a] + Split(b, sep)
    decreases |a|
  {
    var s := a + [sep] + b;
    if |a| == 0 {
      assert s[0] == sep && s[1..] == b;
    } else {
      assert s[0] == a[0] && s[1..] == a[1..] + [sep] + b;
      assert sep !in a[1..];
      SplitAtSep(a[1..], b, sep);
      assert [a[0]] + a[1..] == a;
    }
  }

  /** Splitting a join of separator-free pieces gives the pieces back. */
  lemma {:induction false} SplitJoin(parts: seq<string>, sep: char)
    requires |parts| >= 1
    requires forall i :: 0 <= i < |parts| ==> sep !in parts[i]
    ensures Split(Join(parts, sep), sep) == parts
    decreases |parts|
  {
    if |parts| == 1 {
      SplitWithoutSep(parts[0], sep);
    } else {
      SplitJoin(parts[1..], sep);
      SplitAtSep(parts[0], Join(parts[1..], sep), sep);
      assert [parts[0]] + parts[1..] == parts;
    }
  }

  // ---------------------------------------------------------------------
  // Character and string conversions

  /** `s.charAt(0)`: the first character, or "" for the empty string. */
  function CharAt0(s: string): (r: string)
    ensures |r| == if s == [] then 0 else 1
    ensures s != [] ==> r[0] == s[0]
  {
    if s == [] then "" else [s[0]]
  }

  /** The abbreviation `${name.charAt(0)}.` the handlers show instead of a last name. */
  function Initial(name: string): (r: string)
    ensures name == [] ==> r == "."
    ensures name != [] ==> r == [name[0], '.']
  {
    CharAt0(name) + "."
  }

  /** The decimal digits of a natural number, most significant first. */
  function NatToString(n: nat): (r: string)
    ensures |r| >= 1
    ensures forall i :: 0 <= i < |r| ==> '0' <= r[i] <= '9'
    decreases n
  {
    var d := [('0' as int + n % 10) as char];
    if n < 10 then d else NatToString(n / 10) + d
  }

  /** `String(n)` for an integer. */
  function IntToString(n: int): string
  {
    if n < 0 then "-" + NatToString(-n) else NatToString(n)
  }

  /**
   * `String(v)` as a template literal computes it: `undefined`, `null`,
   * booleans and numbers by name or digits, strings themselves, arrays by
   * joining their items with "," (null and `undefined` items empty) and
   * plain objects as "[object Object]".
   */
  function ToJsString(v: Option<Json>): string
  {
    match v
    case None => "undefined"
    case Some(j) => JsonToString(j)
  }

  function JsonToString(j: Json): string
    decreases j, 1
  {
    match j
    case JNull => "null"
    case JBool(b) => if b then "true" else "false"
    case JNum(n) => IntToString(n)
    case JStr(s) => s
    case JArr(items) => JoinItems(items)
    case JObj(_) => "[object Object]"
  }

  function JoinItems(items: seq<Json>): string
    decreases items, 0
  {
    if |items| == 0 then ""
    else
      var first := if items[0] == JNull then "" else JsonToString(items[0]);
      if |items| == 1 then first else first + "," + JoinItems(items[1..])
  }
}
