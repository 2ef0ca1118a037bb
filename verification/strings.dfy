/** The two JavaScript string conversions the text extractor relies on: `Array.prototype.join`
    over strings and the decimal rendering of an integer id in `"(" + id + ")"`. */
module Strings {

  /** `items.join(sep)`: the items in order with `sep` between neighbours. */
  function Join(items: seq<string>, sep: string): (r: string)
    ensures |items| == 0 ==> r == ""
    ensures |items| == 1 ==> r == items[0]
    decreases |items|
  {
    if |items| == 0 then ""
    else if |items| == 1 then items[0]
    else Join(items[..|items| - 1], sep) + sep + items[|items| - 1]
  }

  /** Joining two non-empty lists puts one separator between their joins. */
  lemma {:induction false} JoinConcat(a: seq<string>, b: seq<string>, sep: string)
    requires |a| > 0 && |b| > 0
    ensures Join(a + b, sep) == Join(a, sep) + sep + Join(b, sep)
    decreases |b|
  {
    var ab := a + b;
    assert ab[..|ab| - 1] == a + b[..|b| - 1];
    assert ab[|ab| - 1] == b[|b| - 1];
    if |b| > 1 {
      JoinConcat(a, b[..|b| - 1], sep);
    } else {
      assert ab[..|ab| - 1] == a;
    }
  }

  /** A text that starts with a prefix and a join of two lists: the prefix and the first join,
      then one separator, then the second join. */
  lemma PrefixedJoinConcat(prefix: string, a: seq<string>, b: seq<string>, sep: string)
    requires |a| > 0 && |b| > 0
    ensures prefix + Join(a + b, sep) == (prefix + Join(a, sep)) + sep + Join(b, sep)
  {
    JoinConcat(a, b, sep);
    Regroup(prefix, Join(a, sep), sep, Join(b, sep));
  }

  /** Concatenation regrouped: a prefix before three parts, or the prefix joined to the first. */
  lemma Regroup(prefix: string, x: string, sep: string, y: string)
    ensures prefix + (x + sep + y) == (prefix + x) + sep + y
  {
    var xs := x + sep;
    assert prefix + (xs + y) == (prefix + xs) + y;
    assert prefix + xs == (prefix + x) + sep;
  }

  /** Dropping the first character of a concatenation whose first part is non-empty drops it
      from that part. */
  lemma DropFirstOfConcat(x: string, y: string)
    requires |x| > 0
    ensures (x + y)[1..] == x[1..] + y
  {
  }

  /** `items.filter(s => s.length > 0)`: the non-empty strings, in their original order. */
  function NonEmpty(items: seq<string>): (r: seq<string>)
    ensures |r| <= |items|
    ensures |items| == 1 ==> r == if items[0] == "" then [] else items
    decreases |items|
  {
    if |items| == 0 then []
    else (if items[0] != "" then [items[0]] else []) + NonEmpty(items[1..])
  }

  /** Filtering keeps order across a split of the list. */
  lemma {:induction false} NonEmptyConcat(a: seq<string>, b: seq<string>)
    ensures NonEmpty(a + b) == NonEmpty(a) + NonEmpty(b)
    decreases |a|
  {
    if |a| == 0 {
      assert a + b == b;
    } else {
      var head := if a[0] != "" then [a[0]] else [];
      assert (a + b)[0] == a[0];
      assert (a + b)[1..] == a[1..] + b;
      NonEmptyConcat(a[1..], b);
      assert head + (NonEmpty(a[1..]) + NonEmpty(b)) == (head + NonEmpty(a[1..])) + NonEmpty(b);
    }
  }

  /** The filter keeps exactly the non-empty strings: everything it returns is a non-empty
      string of the input, every non-empty string of the input is kept, and the result is
      empty exactly when every input string is. */
  lemma {:induction false} NonEmptyExact(items: seq<string>)
    ensures forall t :: t in NonEmpty(items) <==> t in items && t != ""
    ensures NonEmpty(items) == [] <==> forall k :: 0 <= k < |items| ==> items[k] == ""
    decreases |items|
  {
    if |items| > 0 {
      var tail := items[1..];
      NonEmptyExact(tail);
      assert items == [items[0]] + tail;
      if NonEmpty(items) == [] {
        forall k | 0 <= k < |items| ensures items[k] == "" {
          if k > 0 {
            assert items[k] == tail[k - 1];
            assert items[k] in tail;
          }
        }
      }
    }
  }

  predicate IsDigit(c: char)
  {
    '0' <= c <= '9'
  }

  function DigitChar(d: nat): (c: char)
    requires d < 10
    ensures IsDigit(c)
  {
    "0123456789"[d]
  }

  function DigitValue(c: char): (d: nat)
    requires IsDigit(c)
    ensures d < 10
  {
    (c as int - '0' as int) as nat
  }

  /** Decimal digits of a natural number, most significant first, without leading zeros. */
  function NatToString(n: nat): (r: string)
    ensures |r| > 0
    ensures forall k :: 0 <= k < |r| ==> IsDigit(r[k])
    ensures IsDigit(r[0])
    ensures |r| > 1 ==> r[0] != '0'
    decreases n
  {
    if n < 10 then [DigitChar(n)] else NatToString(n / 10) + [DigitChar(n % 10)]
  }

  /** JavaScript's rendering of an integral number: a minus sign, then the digits. */
  function IntToString(n: int): (r: string)
    ensures |r| > 0
    ensures r[0] == '-' <==> n < 0
    ensures n >= 0 ==> r == NatToString(n)
    ensures n < 0 ==> r[0] == '-' && r[1..] == NatToString(-n)
  {
    if n < 0 then "-" + NatToString(-n) else NatToString(n)
  }

  /** Reads a string of decimal digits back as a number. */
  function ParseDigits(s: string): nat
    requires forall k :: 0 <= k < |s| ==> IsDigit(s[k])
    decreases |s|
  {
    if |s| == 0 then 0 else 10 * ParseDigits(s[..|s| - 1]) + DigitValue(s[|s| - 1])
  }

  /** The rendering of an id is faithful: it reads back as the same number. */
  lemma {:induction false} NatToStringRoundTrip(n: nat)
    ensures ParseDigits(NatToString(n)) == n
    decreases n
  {
    var r := NatToString(n);
    if n >= 10 {
      NatToStringRoundTrip(n / 10);
      assert r[..|r| - 1] == NatToString(n / 10);
      assert DigitValue(r[|r| - 1]) == n % 10;
    } else {
      assert DigitValue(r[0]) == n;
    }
  }

  /** Distinct natural numbers render differently. */
  lemma NatToStringInjective(m: nat, n: nat)
    requires NatToString(m) == NatToString(n)
    ensures m == n
  {
    NatToStringRoundTrip(m);
    NatToStringRoundTrip(n);
  }

  /** Distinct ids render differently. */
  lemma IntToStringInjective(m: int, n: int)
    requires IntToString(m) == IntToString(n)
    ensures m == n
  {
    var r := IntToString(m);
    assert r[0] == IntToString(n)[0];
    if m < 0 {
      NatToStringInjective(-m, -n);
    } else {
      NatToStringInjective(m, n);
    }
  }
}
