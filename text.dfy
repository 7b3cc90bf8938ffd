/**
 * The string helpers the builders are assembled from: Go's strings.Join and
 * strings.Repeat, the count of '?' placeholders in a piece of SQL, and the
 * decimal rendering of an integer that fmt's %d verb produces.
 */
module Text {
  import opened Wrappers

  /** strings.Join: the parts in order, with sep between neighbours. */
  function Join(sep: string, parts: seq<string>): string
  {
    if |parts| == 0 then ""
    else if |parts| == 1 then parts[0]
    else Join(sep, parts[..|parts| - 1]) + sep + parts[|parts| - 1]
  }

  /** Joining one more part adds the separator and that part at the end. */
  lemma JoinAppend(sep: string, parts: seq<string>, last: string)
    requires |parts| > 0
    ensures Join(sep, parts + [last]) == Join(sep, parts) + sep + last
  {
    assert (parts + [last])[..|parts|] == parts;
  }

  /** A join starts with its first part. */
  lemma {:induction false} JoinFirst(sep: string, parts: seq<string>)
    requires |parts| > 0
    ensures parts[0] <= Join(sep, parts)
  {
    if |parts| > 1 {
      var init := parts[..|parts| - 1];
      JoinFirst(sep, init);
      assert init[0] == parts[0];
      var j := Join(sep, init);
      assert Join(sep, parts) == j + (sep + parts[|parts| - 1]);
      assert Join(sep, parts)[..|parts[0]|] == j[..|parts[0]|];
    }
  }

  /** strings.Repeat for a non-negative count (a negative count panics in Go). */
  function Repeat(s: string, n: nat): string
  {
    if n == 0 then "" else Repeat(s, n - 1) + s
  }

  /** The number of '?' bind placeholders in a piece of SQL. */
  function Placeholders(s: string): nat
  {
    if s == [] then 0 else (if s[0] == '?' then 1 else 0) + Placeholders(s[1..])
  }

  /** A string has no placeholder exactly when it has no '?' in it. */
  lemma {:induction false} PlaceholdersZero(s: string)
    ensures Placeholders(s) == 0 <==> '?' !in s
  {
    if s != [] {
      PlaceholdersZero(s[1..]);
      assert s == [s[0]] + s[1..];
    }
  }

  lemma {:induction false} PlaceholdersConcat(a: string, b: string)
    ensures Placeholders(a + b) == Placeholders(a) + Placeholders(b)
  {
    if a != [] {
      assert (a + b)[1..] == a[1..] + b;
      PlaceholdersConcat(a[1..], b);
    } else {
      assert a + b == b;
    }
  }

  /** The placeholders of a list of fragments, added up. */
  function SumPlaceholders(parts: seq<string>): nat
  {
    if parts == [] then 0 else SumPlaceholders(parts[..|parts| - 1]) + Placeholders(parts[|parts| - 1])
  }

  /** A separator without placeholders adds none to a join. */
  lemma {:induction false} PlaceholdersJoin(sep: string, parts: seq<string>)
    requires '?' !in sep
    ensures Placeholders(Join(sep, parts)) == SumPlaceholders(parts)
  {
    if |parts| == 1 {
      assert parts[..0] == [];
    } else if |parts| > 1 {
      var init := parts[..|parts| - 1];
      PlaceholdersJoin(sep, init);
      PlaceholdersZero(sep);
      PlaceholdersConcat(Join(sep, init), sep);
      PlaceholdersConcat(Join(sep, init) + sep, parts[|parts| - 1]);
    }
  }

  /** Joining '?'-free parts with a '?'-free separator gives a '?'-free string. */
  lemma {:induction false} JoinPlain(sep: string, parts: seq<string>)
    requires '?' !in sep
    ensures (forall k :: 0 <= k < |parts| ==> '?' !in parts[k]) ==> '?' !in Join(sep, parts)
  {
    if |parts| > 1 {
      JoinPlain(sep, parts[..|parts| - 1]);
      assert forall k :: 0 <= k < |parts| - 1 ==> parts[..|parts| - 1][k] == parts[k];
    }
  }

  /** n copies of a string with one placeholder hold n placeholders. */
  lemma {:induction false} PlaceholdersRepeat(s: string, n: nat)
    requires Placeholders(s) == 1
    ensures Placeholders(Repeat(s, n)) == n
  {
    if n > 0 {
      PlaceholdersRepeat(s, n - 1);
      PlaceholdersConcat(Repeat(s, n - 1), s);
    }
  }

  predicate IsDigits(s: string)
  {
    forall k :: 0 <= k < |s| ==> '0' <= s[k] <= '9'
  }

  function Digit(d: nat): (c: char)
    requires d < 10
    ensures '0' <= c <= '9' && c as int - '0' as int == d
  {
    "0123456789"[d]
  }

  /** The decimal digits of n, most significant first, without leading zeros. */
  function NatDecimal(n: nat): (s: string)
    ensures |s| > 0 && IsDigits(s)
    ensures s[0] != '0' || n == 0
  {
    if n < 10 then [Digit(n)] else NatDecimal(n / 10) + [Digit(n % 10)]
  }

  /** What %d prints for an integer: a '-' for a negative one, then its digits. */
  function Decimal(i: int): (s: string)
    ensures |s| > 0 && '?' !in s
    ensures (s[0] == '-') <==> i < 0
  {
    if i < 0 then "-" + NatDecimal(-i) else NatDecimal(i)
  }

  /** The value of a string of decimal digits; None when some character is not a digit. */
  function DigitsValue(s: string): Option<nat>
  {
    if s == [] then Some(0)
    else
      match DigitsValue(s[..|s| - 1])
      case None => None
      case Some(v) =>
        var c := s[|s| - 1];
        if '0' <= c <= '9' then Some(10 * v + (c as int - '0' as int)) else None
  }

  /** Reads back an integer in the form Decimal prints it. */
  function ParseDecimal(s: string): Option<int>
  {
    if |s| > 1 && s[0] == '-' then
      match DigitsValue(s[1..])
      case None => None
      case Some(v) => Some(-(v as int))
    else if |s| > 0 then
      match DigitsValue(s)
      case None => None
      case Some(v) => Some(v)
    else None
  }

  lemma {:induction false} NatDecimalValue(n: nat)
    ensures DigitsValue(NatDecimal(n)) == Some(n)
  {
    var s := NatDecimal(n);
    if n >= 10 {
      NatDecimalValue(n / 10);
      assert s[..|s| - 1] == NatDecimal(n / 10);
      assert s[|s| - 1] == Digit(n % 10);
    }
  }

  /** A '-' followed by the digits of a value reads back as its negation. */
  lemma ParseNegative(digits: string, v: nat)
    requires |digits| > 0 && DigitsValue(digits) == Some(v)
    ensures ParseDecimal("-" + digits) == Some(-(v as int))
  {
    var s := "-" + digits;
    assert |s| > 1 && s[0] == '-';
    assert s[1..] == digits;
    assert DigitsValue(s[1..]) == Some(v);
  }

  lemma NegativeRoundTrip(i: int)
    requires i < 0
    ensures ParseDecimal(Decimal(i)) == Some(i)
  {
    var n: nat := -i;
    NatDecimalValue(n);
    ParseNegative(NatDecimal(n), n);
    NegativeDecimal(i);
  }

  lemma NegativeDecimal(i: int)
    requires i < 0
    ensures Decimal(i) == "-" + NatDecimal(-i)
  {
  }

  /** Printing an integer and reading it back gives the integer. */
  lemma DecimalRoundTrip(i: int)
    ensures ParseDecimal(Decimal(i)) == Some(i)
  {
    if i < 0 {
      NegativeRoundTrip(i);
    } else {
      NatDecimalValue(i);
      assert '0' <= Decimal(i)[0] <= '9';
    }
  }
}
