/** The string helpers of Go's standard library that the downloader relies on:
    strings.Replace with n = -1, strings.TrimSpace, strconv.Itoa, fmt's %v of a bool,
    and the ", "-joining that the summary file performs by hand. */
module Text {

  /** The placeholder that rendition templates carry. */
  const Placeholder: string := "%{version}"

  // ---------------------------------------------------------------------------
  // strings.Replace(s, pat, rep, -1)
  // ---------------------------------------------------------------------------

  /** Every non-overlapping occurrence of `pat`, found scanning left to right, is replaced by `rep`.
      The source only ever calls it with the non-empty placeholder. A replacement no longer
      than the pattern never lengthens the text, and one no shorter never shortens it. */
  function ReplaceAll(s: string, pat: string, rep: string): (r: string)
    requires pat != []
    ensures |rep| <= |pat| ==> |r| <= |s|
    ensures |pat| <= |rep| ==> |s| <= |r|
    decreases |s|
  {
    if |s| < |pat| then s
    else if s[..|pat|] == pat then rep + ReplaceAll(s[|pat|..], pat, rep)
    else [s[0]] + ReplaceAll(s[1..], pat, rep)
  }

  /** `pat` occurs somewhere in `s`. */
  predicate Contains(s: string, pat: string)
    decreases |s|
  {
    |s| >= |pat| && (s[..|pat|] == pat || (s != [] && Contains(s[1..], pat)))
  }

  /** A string with no occurrence of the pattern comes back unchanged. */
  lemma {:induction false} ReplaceAbsent(s: string, pat: string, rep: string)
    requires pat != [] && !Contains(s, pat)
    ensures ReplaceAll(s, pat, rep) == s
    decreases |s|
  {
    if |s| >= |pat| {
      ReplaceAbsent(s[1..], pat, rep);
      assert [s[0]] + s[1..] == s;
    }
  }

  /** `parts` glued together with `sep` between neighbours. */
  function Join(parts: seq<string>, sep: string): string
    decreases |parts|
  {
    if |parts| == 0 then ""
    else if |parts| == 1 then parts[0]
    else parts[0] + sep + Join(parts[1..], sep)
  }

  /** Text without the placeholder passes through the substitution untouched when what follows
      it is empty or starts another placeholder's '%': no occurrence can straddle the seam,
      since '%' is only the first character of the placeholder. */
  lemma {:induction false} ReplaceSkipsPlain(a: string, rest: string, v: string)
    requires !Contains(a, Placeholder)
    requires rest == [] || rest[0] == '%'
    ensures ReplaceAll(a + rest, Placeholder, v) == a + ReplaceAll(rest, Placeholder, v)
    decreases |a|
  {
    if a != [] {
      var s := a + rest;
      if |s| >= |Placeholder| {
        NoPlaceholderAtSeam(a, rest);
        assert s[1..] == a[1..] + rest;
        assert !Contains(a[1..], Placeholder);
        ReplaceSkipsPlain(a[1..], rest, v);
        calc {
          ReplaceAll(s, Placeholder, v);
          [a[0]] + ReplaceAll(a[1..] + rest, Placeholder, v);
          [a[0]] + (a[1..] + ReplaceAll(rest, Placeholder, v));
          { assert [a[0]] + a[1..] == a; }
          a + ReplaceAll(rest, Placeholder, v);
        }
      } else {
        assert ReplaceAll(s, Placeholder, v) == s;
        assert ReplaceAll(rest, Placeholder, v) == rest;
      }
    } else {
      assert a + rest == rest;
    }
  }

  /** Under the same conditions the text does not start with the placeholder. */
  lemma NoPlaceholderAtSeam(a: string, rest: string)
    requires a != [] && !Contains(a, Placeholder)
    requires rest == [] || rest[0] == '%'
    requires |a + rest| >= |Placeholder|
    ensures (a + rest)[..|Placeholder|] != Placeholder
  {
    var s := a + rest;
    if |a| >= |Placeholder| {
      assert s[..|Placeholder|] == a[..|Placeholder|];
    } else {
      assert s[|a|] == '%';
      assert Placeholder[|a|] != '%';
    }
  }

  /** A template made of placeholder-free parts joined by the placeholder: each placeholder is
      replaced by the version, and the text between placeholders is kept. */
  lemma {:induction false} SubstituteJoin(parts: seq<string>, v: string)
    requires forall p :: p in parts ==> !Contains(p, Placeholder)
    ensures ReplaceAll(Join(parts, Placeholder), Placeholder, v) == Join(parts, v)
    decreases |parts|
  {
    if |parts| == 1 {
      ReplaceSkipsPlain(parts[0], "", v);
      assert parts[0] + "" == parts[0];
    } else if |parts| > 1 {
      var tail := Join(parts[1..], Placeholder);
      var s := Placeholder + tail;
      assert Join(parts, Placeholder) == parts[0] + s;
      ReplaceSkipsPlain(parts[0], s, v);
      assert s[..|Placeholder|] == Placeholder;
      assert s[|Placeholder|..] == tail;
      SubstituteJoin(parts[1..], v);
    } else {
      assert Join(parts, Placeholder) == "";
    }
  }

  // ---------------------------------------------------------------------------
  // strings.TrimSpace
  // ---------------------------------------------------------------------------

  /** unicode.IsSpace: tab, line feed, vertical tab, form feed, carriage return and space; NEL
      and NBSP; and the other White_Space code points. */
  predicate IsSpace(c: char)
  {
    var n := c as int;
    (9 <= n <= 13) || n == 32 || n == 0x85 || n == 0xA0 || n == 0x1680 || (0x2000 <= n <= 0x200A)
    || n == 0x2028 || n == 0x2029 || n == 0x202F || n == 0x205F || n == 0x3000
  }

  function TrimLeft(s: string): string
    decreases |s|
  {
    if |s| > 0 && IsSpace(s[0]) then TrimLeft(s[1..]) else s
  }

  function TrimRight(s: string): string
    decreases |s|
  {
    if |s| > 0 && IsSpace(s[|s| - 1]) then TrimRight(s[..|s| - 1]) else s
  }

  /** strings.TrimSpace: leading, then trailing white space removed. The result is no longer
      than the input and neither starts nor ends with white space. */
  function TrimSpace(s: string): (r: string)
    ensures |r| <= |s|
  {
    TrimLeftIsSuffix(s);
    TrimRightIsPrefix(TrimLeft(s));
    TrimRight(TrimLeft(s))
  }

  lemma {:induction false} TrimLeftIsSuffix(s: string)
    ensures var t := TrimLeft(s);
      |t| <= |s| && t == s[|s| - |t|..]
      && (forall i :: 0 <= i < |s| - |t| ==> IsSpace(s[i]))
      && (t != [] ==> !IsSpace(t[0]))
    decreases |s|
  {
    if |s| > 0 && IsSpace(s[0]) {
      TrimLeftIsSuffix(s[1..]);
    }
  }

  lemma {:induction false} TrimRightIsPrefix(s: string)
    ensures var t := TrimRight(s);
      |t| <= |s| && t == s[..|t|]
      && (forall i :: |t| <= i < |s| ==> IsSpace(s[i]))
      && (t != [] ==> !IsSpace(t[|t| - 1]))
    decreases |s|
  {
    if |s| > 0 && IsSpace(s[|s| - 1]) {
      TrimRightIsPrefix(s[..|s| - 1]);
    }
  }

  /** TrimSpace cuts white space, and only white space, from both ends:
      the result is a slice of the input that neither starts nor ends with a space. */
  lemma TrimSpaceCutsBlanks(s: string)
    ensures var t := TrimSpace(s);
      exists i, j :: 0 <= i <= j <= |s| && t == s[i..j]
        && (forall k :: 0 <= k < i ==> IsSpace(s[k]))
        && (forall k :: j <= k < |s| ==> IsSpace(s[k]))
    ensures TrimSpace(s) != [] ==> !IsSpace(TrimSpace(s)[0]) && !IsSpace(TrimSpace(s)[|TrimSpace(s)| - 1])
  {
    var l := TrimLeft(s);
    TrimLeftIsSuffix(s);
    TrimRightIsPrefix(l);
    var t := TrimRight(l);
    var i := |s| - |l|;
    var j := i + |t|;
    assert t == s[i..j];
    assert forall k :: j <= k < |s| ==> s[k] == l[k - i];
  }

  /** Trimming twice is trimming once. */
  lemma TrimSpaceIdempotent(s: string)
    ensures TrimSpace(TrimSpace(s)) == TrimSpace(s)
  {
    var t := TrimSpace(s);
    TrimSpaceCutsBlanks(s);
    if t != [] {
      assert TrimLeft(t) == t;
      assert TrimRight(t) == t;
    }
  }

  // ---------------------------------------------------------------------------
  // strconv.Itoa and fmt's %v for bool
  // ---------------------------------------------------------------------------

  predicate IsDigit(c: char)
  {
    '0' <= c <= '9'
  }

  function DigitChar(d: nat): char
    requires d < 10
  {
    ('0' as int + d) as char
  }

  /** Decimal digits of a natural number, most significant first, without leading zeros. */
  function NatText(n: nat): (r: string)
    ensures r != [] && IsDigit(r[0])
    decreases n
  {
    if n < 10 then [DigitChar(n)] else NatText(n / 10) + [DigitChar(n % 10)]
  }

  /** strconv.Itoa: a minus sign for negative numbers, then the decimal digits. */
  function IntText(i: int): (r: string)
    ensures r != [] && (r[0] == '-' <==> i < 0)
  {
    if i < 0 then "-" + NatText(-i) else NatText(i)
  }

  predicate AllDigits(s: string)
  {
    forall k :: 0 <= k < |s| ==> IsDigit(s[k])
  }

  /** The value of a string of decimal digits. */
  function DigitsValue(s: string): nat
    requires AllDigits(s)
    decreases |s|
  {
    if s == [] then 0 else DigitsValue(s[..|s| - 1]) * 10 + (s[|s| - 1] as int - '0' as int)
  }

  /** The reading opposite to IntText (strconv.Atoi on its output). */
  function ParseIntText(s: string): int
    requires s != []
    requires (s[0] == '-' && AllDigits(s[1..])) || AllDigits(s)
  {
    if s[0] == '-' && AllDigits(s[1..]) then -(DigitsValue(s[1..]) as int) else DigitsValue(s)
  }

  lemma {:induction false} NatTextDigits(n: nat)
    ensures var r := NatText(n);
      r != [] && AllDigits(r) && DigitsValue(r) == n && (|r| > 1 ==> r[0] != '0')
    decreases n
  {
    if n >= 10 {
      NatTextDigits(n / 10);
      var r := NatText(n);
      assert r[..|r| - 1] == NatText(n / 10);
    }
  }

  /** Itoa round-trips: reading back the digits it writes gives the number. */
  lemma IntTextRoundTrip(i: int)
    ensures IntText(i) != []
    ensures (IntText(i)[0] == '-' && AllDigits(IntText(i)[1..])) || AllDigits(IntText(i))
    ensures ParseIntText(IntText(i)) == i
  {
    if i < 0 {
      NatTextDigits(-i);
      assert IntText(i)[1..] == NatText(-i);
    } else {
      NatTextDigits(i);
    }
  }

  /** fmt.Sprintf("%v", b) for a bool. */
  function BoolText(b: bool): (r: string)
    ensures r == "true" <==> b
    ensures r == "false" <==> !b
  {
    if b then "true" else "false"
  }
}
