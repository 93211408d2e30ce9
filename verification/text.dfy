/** Byte-string helpers with the semantics of the Go `strings` and `fmt`
    functions the channel core relies on. A Go string is a sequence of
    bytes; here each `char` stands for one byte, and only the ASCII range
    carries meaning (whitespace, digits, letters). */
module Text {

  import opened Wrappers

  /** ASCII whitespace as recognised by Go's `strings.TrimSpace`:
      tab, newline, vertical tab, form feed, carriage return, space. */
  predicate IsSpace(c: char) {
    c == ' ' || ('\t' <= c <= '\r')
  }

  /** No whitespace at either end. */
  predicate NoEdgeSpace(s: string) {
    s == [] || (!IsSpace(s[0]) && !IsSpace(s[|s| - 1]))
  }

  predicate AllSpace(s: string) {
    forall i :: 0 <= i < |s| ==> IsSpace(s[i])
  }

  function TrimLeftSpace(s: string): (r: string)
    ensures |r| <= |s| && r == s[|s| - |r|..]
    ensures r == [] || !IsSpace(r[0])
    ensures forall i :: 0 <= i < |s| - |r| ==> IsSpace(s[i])
  {
    if |s| > 0 && IsSpace(s[0]) then
      var r := TrimLeftSpace(s[1..]);
      assert s[1..][|s| - 1 - |r|..] == s[|s| - |r|..];
      assert forall i :: 1 <= i < |s| - |r| ==> s[i] == s[1..][i - 1];
      r
    else s
  }

  function TrimRightSpace(s: string): (r: string)
    ensures |r| <= |s| && r == s[..|r|]
    ensures r == [] || !IsSpace(r[|r| - 1])
    ensures forall i :: |r| <= i < |s| ==> IsSpace(s[i])
  {
    if |s| > 0 && IsSpace(s[|s| - 1]) then
      var r := TrimRightSpace(s[..|s| - 1]);
      assert s[..|s| - 1][..|r|] == s[..|r|];
      assert forall i :: |r| <= i < |s| - 1 ==> s[i] == s[..|s| - 1][i];
      r
    else s
  }

  /** `r` is `s[i..j]`, and what lies outside that window is whitespace. */
  predicate SpaceCutAt(s: string, r: string, i: int, j: int) {
    0 <= i <= j <= |s| && r == s[i..j] && AllSpace(s[..i]) && AllSpace(s[j..])
  }

  /** `r` is `s` with some whitespace cut from each end. */
  ghost predicate SpaceCut(s: string, r: string) {
    exists i, j :: SpaceCutAt(s, r, i, j)
  }

  /** `strings.TrimSpace`: the longest infix with no whitespace at its ends
      (that it is `s` with only edge whitespace cut is `TrimSpaceIsCut`). */
  function TrimSpace(s: string): (r: string)
    ensures NoEdgeSpace(r)
    ensures r == [] <==> AllSpace(s)
    ensures NoEdgeSpace(s) ==> r == s
  {
    var l := TrimLeftSpace(s);
    var r := TrimRightSpace(l);
    assert r == [] ==> l == [];
    r
  }

  /** `strings.TrimSpace` removes edge whitespace and nothing else; with
      `NoEdgeSpace` of the result this pins the result down. */
  lemma TrimSpaceIsCut(s: string)
    ensures SpaceCut(s, TrimSpace(s))
  {
    SpaceCutOfTrims(s, TrimLeftSpace(s), TrimSpace(s));
  }

  /** Cutting a whitespace prefix and then a whitespace suffix is a cut. */
  lemma SpaceCutOfTrims(s: string, l: string, r: string)
    requires |l| <= |s| && l == s[|s| - |l|..]
    requires forall i :: 0 <= i < |s| - |l| ==> IsSpace(s[i])
    requires |r| <= |l| && r == l[..|r|]
    requires forall i :: |r| <= i < |l| ==> IsSpace(l[i])
    ensures SpaceCut(s, r)
  {
    var i := |s| - |l|;
    var j := i + |r|;
    assert r == s[i..j];
    assert AllSpace(s[..i]);
    assert AllSpace(s[j..]) by {
      assert forall k :: 0 <= k < |s| - j ==> s[j..][k] == l[|r| + k];
    }
    assert SpaceCutAt(s, r, i, j);
  }

  /** Trimming only removes bytes: a byte absent from `s` is absent from
      its trimmed form. */
  lemma TrimSpaceKeepsOut(s: string, c: char)
    requires c !in s
    ensures c !in TrimSpace(s)
  {
    var l := TrimLeftSpace(s);
    assert c !in l by {
      assert forall k :: 0 <= k < |l| ==> l[k] == s[|s| - |l| + k];
    }
    var r := TrimRightSpace(l);
    assert forall k :: 0 <= k < |r| ==> r[k] == l[k];
  }

  /** Every byte of `s` is `c`. */
  predicate AllChar(s: string, c: char) {
    forall i :: 0 <= i < |s| ==> s[i] == c
  }

  /** `r` is `s[i..j]`, and what lies outside that window is all `c`. */
  predicate CharCutAt(s: string, r: string, c: char, i: int, j: int) {
    0 <= i <= j <= |s| && r == s[i..j] && AllChar(s[..i], c) && AllChar(s[j..], c)
  }

  /** `r` is `s` with some `c`s cut from each end. */
  ghost predicate CharCut(s: string, r: string, c: char) {
    exists i, j :: CharCutAt(s, r, c, i, j)
  }

  /** `strings.Trim(s, string(c))` for a single cut byte. */
  function TrimChar(s: string, c: char): (r: string)
    ensures |r| <= |s|
    ensures r == [] || (r[0] != c && r[|r| - 1] != c)
  {
    if |s| > 0 && s[0] == c then TrimChar(s[1..], c)
    else if |s| > 0 && s[|s| - 1] == c then TrimChar(s[..|s| - 1], c)
    else s
  }

  /** `TrimChar` cuts `c`s from the ends of `s` and nothing else. */
  lemma {:induction false} TrimCharIsCut(s: string, c: char)
    ensures CharCut(s, TrimChar(s, c), c)
    decreases |s|
  {
    var r := TrimChar(s, c);
    if |s| > 0 && s[0] == c {
      TrimCharIsCut(s[1..], c);
      assert s == [c] + s[1..];
      CutExtendLeft(s[1..], r, c);
    } else if |s| > 0 && s[|s| - 1] == c {
      TrimCharIsCut(s[..|s| - 1], c);
      assert s == s[..|s| - 1] + [c];
      CutExtendRight(s[..|s| - 1], r, c);
    } else {
      assert r == s[0..|s|] && s[..0] == [] && s[|s|..] == [];
      assert CharCutAt(s, r, c, 0, |s|);
    }
  }

  lemma CutExtendLeft(t: string, r: string, c: char)
    requires CharCut(t, r, c)
    ensures CharCut([c] + t, r, c)
  {
    var s := [c] + t;
    var i, j :| CharCutAt(t, r, c, i, j);
    assert r == s[i + 1..j + 1];
    assert s[..i + 1] == [c] + t[..i];
    assert s[j + 1..] == t[j..];
    assert CharCutAt(s, r, c, i + 1, j + 1);
  }

  lemma CutExtendRight(t: string, r: string, c: char)
    requires CharCut(t, r, c)
    ensures CharCut(t + [c], r, c)
  {
    var s := t + [c];
    var i, j :| CharCutAt(t, r, c, i, j);
    assert r == s[i..j];
    assert s[..i] == t[..i];
    assert s[j..] == t[j..] + [c];
    assert CharCutAt(s, r, c, i, j);
  }

  predicate HasPrefix(s: string, p: string) {
    |p| <= |s| && s[..|p|] == p
  }

  /** `strings.Contains`: `p` occurs somewhere in `s`. */
  predicate Contains(s: string, p: string)
    decreases |s|
  {
    |p| <= |s| && (s[..|p|] == p || Contains(s[1..], p))
  }

  /** Whatever precedes and follows an occurrence, it is still found. */
  lemma {:induction false} ContainsInfix(a: string, p: string, b: string)
    ensures Contains(a + p + b, p)
    decreases |a|
  {
    var s := a + p + b;
    if a == [] {
      assert s[..|p|] == p;
    } else {
      assert s[1..] == a[1..] + p + b;
      ContainsInfix(a[1..], p, b);
    }
  }

  /** Position of the first `c` in `s`. */
  function IndexOf(s: string, c: char): (i: nat)
    requires c in s
    ensures i < |s| && s[i] == c && c !in s[..i]
  {
    if s[0] == c then 0 else 1 + IndexOf(s[1..], c)
  }

  /** Glue pieces back together with a separator between neighbours. */
  function JoinWith(pieces: seq<string>, sep: char): string
    requires |pieces| >= 1
  {
    if |pieces| == 1 then pieces[0] else pieces[0] + [sep] + JoinWith(pieces[1..], sep)
  }

  /** `strings.Split(s, string(sep))`: the maximal separator-free pieces, one
      more than the number of separators, which join back to `s`. */
  function SplitOn(s: string, sep: char): (r: seq<string>)
    ensures |r| >= 1
    ensures forall k :: 0 <= k < |r| ==> sep !in r[k]
    ensures JoinWith(r, sep) == s
    decreases |s|
  {
    if sep !in s then [s]
    else
      var i := IndexOf(s, sep);
      var rest := SplitOn(s[i + 1..], sep);
      var r := [s[..i]] + rest;
      assert r[1..] == rest;
      assert s == s[..i] + [sep] + s[i + 1..];
      r
  }

  /** Splitting inverts joining whenever no piece holds the separator. */
  lemma {:induction false} SplitJoin(pieces: seq<string>, sep: char)
    requires |pieces| >= 1
    requires forall k :: 0 <= k < |pieces| ==> sep !in pieces[k]
    ensures SplitOn(JoinWith(pieces, sep), sep) == pieces
    decreases |pieces|
  {
    if |pieces| == 1 {
    } else {
      var p := pieces[0];
      var tail := JoinWith(pieces[1..], sep);
      var s := p + [sep] + tail;
      assert s[..|p|] == p;
      assert s[|p|] == sep;
      assert sep !in p by { assert sep !in pieces[0]; }
      var i := IndexOf(s, sep);
      assert i == |p|;
      assert s[|p| + 1..] == tail;
      SplitJoin(pieces[1..], sep);
      assert SplitOn(s, sep) == [p] + pieces[1..];
    }
  }

  lemma {:induction false} JoinConcat(a: seq<string>, b: seq<string>, sep: char)
    requires |a| >= 1 && |b| >= 1
    ensures JoinWith(a + b, sep) == JoinWith(a, sep) + [sep] + JoinWith(b, sep)
    decreases |a|
  {
    if |a| == 1 {
      assert (a + b)[1..] == b;
    } else {
      assert (a + b)[1..] == a[1..] + b;
      JoinConcat(a[1..], b, sep);
    }
  }

  /** A separator in the middle splits into the pieces of each side. */
  lemma SplitConcat(a: string, b: string, sep: char)
    ensures SplitOn(a + [sep] + b, sep) == SplitOn(a, sep) + SplitOn(b, sep)
  {
    var pa := SplitOn(a, sep);
    var pb := SplitOn(b, sep);
    JoinConcat(pa, pb, sep);
    SplitJoin(pa + pb, sep);
  }

  // ---------------------------------------------------------------------
  // Decimal rendering of integers, as `fmt`'s `%d` verb does it.

  predicate IsDigit(c: char) {
    '0' <= c <= '9'
  }

  function DigitChar(d: nat): (c: char)
    requires d < 10
    ensures IsDigit(c) && (c as int) - ('0' as int) == d
  {
    "0123456789"[d]
  }

  /** Decimal digits of `n`, most significant first, without leading zeros. */
  function NatToDecimal(n: nat): (r: string)
    ensures |r| >= 1
    ensures AllDigits(r)
    ensures r[0] == '0' <==> n == 0
  {
    if n < 10 then [DigitChar(n)] else NatToDecimal(n / 10) + [DigitChar(n % 10)]
  }

  /** `%d`: an optional minus sign followed by the digits of the magnitude,
      with no leading zero except for zero itself. */
  function IntToDecimal(n: int): (r: string)
    ensures |r| >= 1
    ensures r[0] == '-' <==> n < 0
    ensures n >= 0 ==> AllDigits(r) && (r[0] == '0' <==> n == 0)
    ensures n < 0 ==> |r| >= 2 && AllDigits(r[1..]) && r[1] != '0'
  {
    if n < 0 then
      var d := NatToDecimal(-n);
      assert ("-" + d)[1..] == d;
      "-" + d
    else NatToDecimal(n)
  }

  predicate AllDigits(s: string) {
    forall i :: 0 <= i < |s| ==> IsDigit(s[i])
  }

  /** The value denoted by a string of decimal digits. */
  function DecimalValue(s: string): nat
    requires AllDigits(s)
  {
    if s == [] then 0
    else DecimalValue(s[..|s| - 1]) * 10 + ((s[|s| - 1] as int) - ('0' as int))
  }

  /** Reads back what `IntToDecimal` writes; `None` for anything else. */
  function ParseDecimal(s: string): Option<int> {
    if |s| >= 2 && s[0] == '-' && AllDigits(s[1..]) then Some(0 - DecimalValue(s[1..]) as int)
    else if |s| >= 1 && AllDigits(s) then Some(DecimalValue(s))
    else None
  }

  lemma {:induction false} NatDecimalRoundTrip(n: nat)
    ensures DecimalValue(NatToDecimal(n)) == n
    decreases n
  {
    if n >= 10 {
      var s := NatToDecimal(n);
      assert s[..|s| - 1] == NatToDecimal(n / 10);
      NatDecimalRoundTrip(n / 10);
    }
  }

  /** `%d` output parses back to the integer it renders. */
  lemma DecimalRoundTrip(n: int)
    ensures ParseDecimal(IntToDecimal(n)) == Some(n)
  {
    var m: nat := if n < 0 then -n else n;
    var d := NatToDecimal(m);
    assert DecimalValue(d) == m by {
      NatDecimalRoundTrip(m);
    }
    ParseRendered(n < 0, d);
  }

  /** Reading an optional minus sign and a digit string. */
  lemma ParseRendered(negative: bool, d: string)
    requires |d| >= 1 && AllDigits(d)
    ensures ParseDecimal(if negative then "-" + d else d)
         == Some(if negative then 0 - DecimalValue(d) as int else DecimalValue(d))
  {
    if negative {
      var s := "-" + d;
      assert s[1..] == d;
    } else {
      assert IsDigit(d[0]);
    }
  }

  // ---------------------------------------------------------------------

  /** ASCII lower-casing, the byte path of `strings.ToLower`. */
  function ToLowerAscii(s: string): (r: string)
    ensures |r| == |s|
    ensures forall i :: 0 <= i < |s| ==> !('A' <= r[i] <= 'Z')
    ensures forall i :: 0 <= i < |s| && 'A' <= s[i] <= 'Z' ==> 'a' <= r[i] <= 'z' && r[i] as int - s[i] as int == 'a' as int - 'A' as int
    ensures forall i :: 0 <= i < |s| && !('A' <= s[i] <= 'Z') ==> r[i] == s[i]
  {
    seq(|s|, i requires 0 <= i < |s| =>
      if 'A' <= s[i] <= 'Z' then ((s[i] as int) + 32) as char else s[i])
  }

  /** Lower-casing an already lower-cased string changes nothing. */
  lemma ToLowerIdempotent(s: string)
    ensures ToLowerAscii(ToLowerAscii(s)) == ToLowerAscii(s)
  {
  }
}
