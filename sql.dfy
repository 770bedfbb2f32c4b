/**
 * What the handlers rely on from PostgreSQL through node-postgres: rows are
 * objects keyed by column name, a model's `create`/`update` binds each of its
 * listed columns from the data object (`undefined` is sent as NULL), and an
 * id that arrives as a string path parameter is parsed by the server as an
 * `integer` — failing on text that is not one.
 */
module Sql {
  import opened Wrappers
  import opened Js

  /** A row as node-postgres returns it: column name to value. */
  type Row = map<string, Json>

  /** The values bound for `columns` when a model reads them from `data`. */
  function Project(data: Row, columns: seq<string>): (r: Row)
    ensures r.Keys == set c | c in columns
    ensures forall c :: c in r ==> r[c] == (if c in data then data[c] else JNull)
  {
    map c | c in columns :: if c in data then data[c] else JNull
  }

  predicate IsDigit(c: char)
  {
    '0' <= c <= '9'
  }

  /** The value of a string of decimal digits. */
  function DigitsValue(s: string): (n: nat)
    requires forall i :: 0 <= i < |s| ==> IsDigit(s[i])
    decreases |s|
  {
    if s == [] then 0
    else
      assert IsDigit(s[|s| - 1]);
      DigitsValue(s[..|s| - 1]) * 10 + (s[|s| - 1] as int - '0' as int)
  }

  const Int4Min: int := -0x8000_0000
  const Int4Max: int := 0x7FFF_FFFF

  /** PostgreSQL's rejection of text that is not an integer. */
  function SyntaxError(s: string): string
  {
    "invalid input syntax for type integer: \"" + s + "\""
  }

  /** PostgreSQL's rejection of an integer outside 32 bits. */
  function RangeError(s: string): string
  {
    "value \"" + s + "\" is out of range for type integer"
  }

  /**
   * The server's reading of a text parameter compared with an `integer`
   * column: an optional sign and at least one digit, within 32 bits.
   * (Surrounding whitespace, which the server also tolerates, is not modelled.)
   */
  function ParseInt4(s: string): (r: Result<int, string>)
    ensures r.Success? ==> Int4Min <= r.value <= Int4Max
    ensures r.Success? ==> s != [] && (IsDigit(s[0]) || s[0] == '-' || s[0] == '+')
  {
    var negative := s != [] && s[0] == '-';
    var digits := if s != [] && (s[0] == '-' || s[0] == '+') then s[1..] else s;
    if digits == [] || exists i :: 0 <= i < |digits| && !IsDigit(digits[i]) then Failure(SyntaxError(s))
    else
      var magnitude: int := DigitsValue(digits);
      var n := if negative then 0 - magnitude else magnitude;
      if n < Int4Min || n > Int4Max then Failure(RangeError(s)) else Success(n)
  }

  /** The decimal spelling of an id parses back to that id. */
  lemma {:induction false} ParseNatToString(n: nat)
    requires n <= Int4Max
    ensures ParseInt4(NatToString(n)) == Success(n)
  {
    var s := NatToString(n);
    DigitsValueNatToString(n);
    assert IsDigit(s[0]);
    assert !exists i :: 0 <= i < |s| && !IsDigit(s[i]);
  }

  lemma {:induction false} DigitsValueNatToString(n: nat)
    ensures DigitsValue(NatToString(n)) == n
    decreases n
  {
    var s := NatToString(n);
    if n >= 10 {
      DigitsValueNatToString(n / 10);
      assert s[..|s| - 1] == NatToString(n / 10);
    }
  }

  /**
   * A path parameter bound as an id: `undefined` (an optional parameter that
   * was left out) is sent as NULL and matches no row; text is parsed.
   */
  function ParamId(p: Option<string>): (r: Result<Option<int>, string>)
    ensures p.None? ==> r == Success(None)
    ensures p.Some? ==> (r.Success? <==> ParseInt4(p.value).Success?)
    ensures p.Some? && r.Success? ==> r.value == Some(ParseInt4(p.value).value)
  {
    match p
    case None => Success(None)
    case Some(s) =>
      match ParseInt4(s)
      case Success(n) => Success(Some(n))
      case Failure(e) => Failure(e)
  }
}
