/**
 The fragments of JavaScript value semantics that the proxy's code depends on:
 reading possibly missing properties of parsed JSON, truthiness and `||`
 chains, template-literal interpolation, and the decimal text of an integral
 Number.
 */
module JsValues {

  datatype Option<+T> = None | Some(value: T) {

    /** The value, or `default` when there is none. */
    function GetOr(default: T): T {
      match this
      case Some(v) => v
      case None => default
    }
  }

  /** The result of reading a property: `undefined` when the property is
      missing, `null` when it holds JSON null, otherwise a value. */
  datatype Field<+T> = Undefined | Null | Defined(value: T)

  /** JavaScript truthiness of a string-valued read: `undefined`, `null` and
      the empty string are falsy, every other string is truthy. */
  predicate Truthy(f: Field<string>) {
    f.Defined? && f.value != ""
  }

  /** Position `i` is where the chain `chain[0] || chain[1] || ...` stops:
      the first truthy link. */
  ghost predicate StopsAt(chain: seq<Field<string>>, i: int) {
    && 0 <= i < |chain|
    && Truthy(chain[i])
    && forall j :: 0 <= j < i ==> !Truthy(chain[j])
  }

  /** The value of `chain[0] || chain[1] || ...`: the first truthy link, or
      None when every link is falsy (the chain then yields its last operand,
      which the caller's trailing literal replaces). */
  function FirstTruthy(chain: seq<Field<string>>): (r: Option<string>)
    ensures r.None? <==> forall i :: 0 <= i < |chain| ==> !Truthy(chain[i])
    ensures r.Some? ==> r.value != "" && exists i :: StopsAt(chain, i) && chain[i].value == r.value
  {
    if |chain| == 0 then None
    else if Truthy(chain[0]) then
      assert StopsAt(chain, 0);
      Some(chain[0].value)
    else
      var rest := FirstTruthy(chain[1..]);
      assert rest.Some? ==> exists i :: StopsAt(chain, i) && chain[i].value == rest.value by {
        if rest.Some? {
          var k :| StopsAt(chain[1..], k) && chain[1..][k].value == rest.value;
          assert StopsAt(chain, k + 1);
        }
      }
      rest
  }

  /** A two-link chain `a || b` takes `a` when it is truthy, else `b` when
      that is truthy. */
  lemma FirstTruthyOfTwo(a: Field<string>, b: Field<string>)
    ensures Truthy(a) ==> FirstTruthy([a, b]) == Some(a.value)
    ensures !Truthy(a) && Truthy(b) ==> FirstTruthy([a, b]) == Some(b.value)
    ensures !Truthy(a) && !Truthy(b) ==> FirstTruthy([a, b]) == None
  {
  }

  /** `f || fallback` for a numeric read: `undefined`, `null` and `0` are falsy. */
  function NumberOr(f: Field<int>, fallback: int): int {
    if f.Defined? && f.value != 0 then f.value else fallback
  }

  /** The text that a template literal `${f}` produces for a string-valued read. */
  function Interpolate(f: Field<string>): string {
    match f
    case Undefined => "undefined"
    case Null => "null"
    case Defined(s) => s
  }

  predicate IsDigit(c: char) {
    '0' <= c <= '9'
  }

  predicate AllDigits(s: string) {
    forall i :: 0 <= i < |s| ==> IsDigit(s[i])
  }

  function DigitChar(d: nat): (c: char)
    requires d < 10
    ensures IsDigit(c) && c as int - '0' as int == d
  {
    ('0' as int + d) as char
  }

  /** Decimal digits of a natural number, most significant first. */
  function NaturalToString(n: nat): (s: string)
    ensures |s| > 0 && AllDigits(s)
    decreases n
  {
    if n < 10 then [DigitChar(n)]
    else NaturalToString(n / 10) + [DigitChar(n % 10)]
  }

  /** The value of a string of decimal digits, most significant first. */
  function DigitsValue(s: string): nat
    requires AllDigits(s)
  {
    if |s| == 0 then 0
    else 10 * DigitsValue(s[..|s| - 1]) + (s[|s| - 1] as int - '0' as int)
  }

  /** `String(n)` for an integral Number in the range where JavaScript prints
      plain decimal digits: an optional minus sign, then the digits. */
  function NumberToString(n: int): (s: string)
    ensures |s| > 0
    ensures forall i :: 0 <= i < |s| ==> s[i] == '-' || IsDigit(s[i])
  {
    if n < 0 then "-" + NaturalToString(-n) else NaturalToString(n)
  }

  /** Reads back what NumberToString writes: an optional minus sign followed
      by at least one digit. */
  function ReadNumber(s: string): Option<int> {
    if |s| > 1 && s[0] == '-' && AllDigits(s[1..]) then Some(0 - DigitsValue(s[1..]) as int)
    else if |s| > 0 && AllDigits(s) then Some(DigitsValue(s))
    else None
  }

  lemma {:induction false} DigitsRoundTrip(n: nat)
    ensures DigitsValue(NaturalToString(n)) == n
    decreases n
  {
    if n >= 10 {
      var s := NaturalToString(n);
      assert s[..|s| - 1] == NaturalToString(n / 10);
      DigitsRoundTrip(n / 10);
    }
  }

  /** Every integer's decimal text reads back as that integer. */
  lemma NumberRoundTrip(n: int)
    ensures ReadNumber(NumberToString(n)) == Some(n)
  {
    var s := NumberToString(n);
    if n < 0 {
      assert s[1..] == NaturalToString(-n);
      DigitsRoundTrip(-n);
    } else {
      assert s[0] != '-';
      DigitsRoundTrip(n);
    }
  }

  /** Distinct integers have distinct decimal texts. */
  lemma NumberToStringInjective(a: int, b: int)
    requires NumberToString(a) == NumberToString(b)
    ensures a == b
  {
    NumberRoundTrip(a);
    NumberRoundTrip(b);
  }

  /** When two equal concatenations have heads free of a separator and
      tails that start with it, heads and tails agree: the first separator
      marks where the head ends. */
  lemma SplitAtSeparator(a1: string, s1: string, a2: string, s2: string, sep: char)
    requires sep !in a1 && sep !in a2
    requires |s1| > 0 && s1[0] == sep && |s2| > 0 && s2[0] == sep
    requires a1 + s1 == a2 + s2
    ensures a1 == a2 && s1 == s2
  {
    var u := a1 + s1;
    assert u[|a1|] == sep && forall k :: 0 <= k < |a1| ==> u[k] == a1[k];
    assert u[|a2|] == sep && forall k :: 0 <= k < |a2| ==> u[k] == a2[k];
    assert |a1| == |a2|;
    assert a1 == u[..|a1|] == a2;
    assert s1 == u[|a1|..] == s2;
  }

  /** A common head can be cancelled from two equal concatenations. */
  lemma CancelPrefix(p: string, x: string, y: string)
    requires p + x == p + y
    ensures x == y
  {
    assert x == (p + x)[|p|..];
  }
}
