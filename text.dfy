/**
 * The text renderings the client uses when it builds a query string:
 * `Vec::join(",")`, the decimal `to_string` of an unsigned integer and the
 * `Display` of a `bool`, each with its parsing partner.
 */
module Text {
  import opened Wrappers

  /** Rust's `u64` and `NonZeroU64`. */
  const U64Bound: nat := 0x1_0000_0000_0000_0000
  type U64 = n: nat | n < U64Bound
  type NonZeroU64 = n: nat | 0 < n < U64Bound witness 1

  /** Index of the first occurrence of `c` in `s`. */
  function IndexOf(s: string, c: char): (i: nat)
    requires c in s
    ensures i < |s| && s[i] == c && c !in s[..i]
  {
    if s[0] == c then 0 else 1 + IndexOf(s[1..], c)
  }

  /** `xs.join(sep)`: the items with one `sep` between neighbours. */
  function Join(xs: seq<string>, sep: char): (r: string)
    ensures forall d :: d != sep ==> (d in r <==> exists k :: 0 <= k < |xs| && d in xs[k])
    ensures |xs| == 1 ==> r == xs[0]
  {
    if |xs| == 0 then ""
    else if |xs| == 1 then xs[0]
    else xs[0] + [sep] + Join(xs[1..], sep)
  }

  /** `s.split(sep)` as Rust and the server read it: never empty, the pieces between separators. */
  function Split(s: string, sep: char): (parts: seq<string>)
    ensures |parts| >= 1
    ensures forall k :: 0 <= k < |parts| ==> sep !in parts[k]
    decreases |s|
  {
    if sep !in s then [s]
    else
      var i := IndexOf(s, sep);
      [s[..i]] + Split(s[i + 1..], sep)
  }

  /** A list of items none of which contains `sep`. */
  predicate Separable(xs: seq<string>, sep: char)
  {
    forall k :: 0 <= k < |xs| ==> sep !in xs[k]
  }

  lemma JoinCons(x: string, rest: seq<string>, sep: char)
    requires |rest| >= 1
    ensures Join([x] + rest, sep) == x + [sep] + Join(rest, sep)
  {
    assert ([x] + rest)[1..] == rest;
  }

  lemma IndexOfPrefix(x: string, sep: char, t: string)
    requires sep !in x
    ensures sep in x + [sep] + t && IndexOf(x + [sep] + t, sep) == |x|
  {
    var s := x + [sep] + t;
    assert s[|x|] == sep;
  }

  /** Splitting a joined list gives the list back when no item contains the separator. */
  lemma {:induction false} SplitJoin(xs: seq<string>, sep: char)
    requires |xs| >= 1 && Separable(xs, sep)
    ensures Split(Join(xs, sep), sep) == xs
  {
    if |xs| > 1 {
      var rest := xs[1..];
      assert xs == [xs[0]] + rest;
      JoinCons(xs[0], rest, sep);
      var t := Join(rest, sep);
      var s := xs[0] + [sep] + t;
      IndexOfPrefix(xs[0], sep, t);
      assert s[..|xs[0]|] == xs[0];
      assert s[|xs[0]| + 1..] == t;
      SplitJoin(rest, sep);
    }
  }

  /** Joining the pieces of a split gives the text back. */
  lemma {:induction false} JoinSplit(s: string, sep: char)
    ensures Join(Split(s, sep), sep) == s
    decreases |s|
  {
    if sep in s {
      var i := IndexOf(s, sep);
      var rest := Split(s[i + 1..], sep);
      JoinSplit(s[i + 1..], sep);
      JoinCons(s[..i], rest, sep);
      assert s == s[..i] + [sep] + s[i + 1..];
    }
  }

  /** The empty list and the list holding one empty item join to the same text, so a receiver cannot tell them apart. */
  lemma JoinNotInjective(sep: char)
    ensures Join([], sep) == Join([""], sep) == ""
    ensures Split(Join([], sep), sep) == [""]
  {
  }

  predicate IsDigit(c: char) { '0' <= c <= '9' }

  predicate IsDigits(s: string) { forall k :: 0 <= k < |s| ==> IsDigit(s[k]) }

  function DigitChar(d: nat): (c: char)
    requires d < 10
    ensures IsDigit(c) && c as int - '0' as int == d
  {
    ('0' as int + d) as char
  }

  function DigitValue(c: char): (d: nat)
    requires IsDigit(c)
    ensures d < 10 && DigitChar(d) == c
  {
    c as int - '0' as int
  }

  /** `n.to_string()`: the shortest decimal numeral of `n`. */
  function NatToString(n: nat): (r: string)
    ensures |r| >= 1 && IsDigits(r)
    ensures r[0] == '0' ==> |r| == 1
    decreases n
  {
    if n < 10 then [DigitChar(n)] else NatToString(n / 10) + [DigitChar(n % 10)]
  }

  /** The value of a string of decimal digits, most significant first. */
  function DigitsValue(s: string): nat
    requires IsDigits(s)
  {
    if |s| == 0 then 0 else DigitsValue(s[..|s| - 1]) * 10 + DigitValue(s[|s| - 1])
  }

  /** Reads a canonical decimal numeral (no sign, no leading zero). */
  function ParseNat(s: string): (r: Option<nat>)
    ensures r.Some? <==> |s| >= 1 && IsDigits(s) && (s[0] == '0' ==> |s| == 1)
  {
    if |s| >= 1 && IsDigits(s) && (s[0] == '0' ==> |s| == 1) then Some(DigitsValue(s)) else None
  }

  lemma {:induction false} DigitsValueOfNat(n: nat)
    ensures DigitsValue(NatToString(n)) == n
    decreases n
  {
    if n >= 10 {
      var r := NatToString(n);
      DigitsValueOfNat(n / 10);
      assert r[..|r| - 1] == NatToString(n / 10);
    }
  }

  /** Decimal rendering round-trips, so it is injective. */
  lemma ParseNatToString(n: nat)
    ensures ParseNat(NatToString(n)) == Some(n)
  {
    DigitsValueOfNat(n);
  }

  lemma NatToStringInjective(m: nat, n: nat)
    ensures NatToString(m) == NatToString(n) <==> m == n
  {
    ParseNatToString(m);
    ParseNatToString(n);
  }

  /** `bool`'s `Display`. */
  function BoolToString(b: bool): (r: string)
    ensures |r| >= 4 && IsLowerWord(r)
  {
    if b then "true" else "false"
  }

  predicate IsLowerWord(s: string) { forall k :: 0 <= k < |s| ==> 'a' <= s[k] <= 'z' }

  function ParseBool(s: string): (r: Option<bool>)
    ensures r.Some? ==> s == BoolToString(r.value)
  {
    if s == "true" then Some(true) else if s == "false" then Some(false) else None
  }

  lemma ParseBoolToString(b: bool)
    ensures ParseBool(BoolToString(b)) == Some(b)
  {
  }
}
