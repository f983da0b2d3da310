/** Channel numbers: decimal text brought to one canonical form per number. */
module ChannelNumber {
  import opened Common
  import opened Text

  const MAX_LENGTH := 32

  predicate Digit(c: char) {
    '0' <= c <= '9'
  }

  predicate Digits(s: string) {
    forall i :: 0 <= i < |s| ==> Digit(s[i])
  }

  /** The place of the first dot, or the length. */
  function DotAt(s: string): (d: nat)
    ensures d <= |s| && (forall i :: 0 <= i < d ==> s[i] != '.') && (d < |s| ==> s[d] == '.')
  {
    if s == "" || s[0] == '.' then 0 else 1 + DotAt(s[1..])
  }

  function Whole(s: string): string {
    s[..DotAt(s)]
  }

  function Fraction(s: string): string {
    if DotAt(s) < |s| then s[DotAt(s) + 1..] else ""
  }

  /** Digits, with at most one dot, which stands between digits. */
  predicate IsNumber(s: string) {
    && 0 < |s| <= 32 && Digits(Whole(s)) && Digits(Fraction(s)) && Whole(s) != ""
    && (DotAt(s) < |s| ==> Fraction(s) != "")
  }

  // ------------------------------------------------------------ what it denotes

  function DigitValue(c: char): (v: nat)
    requires Digit(c)
    ensures v <= 9 && "0123456789"[v] == c
  {
    c as int - '0' as int
  }

  function WholeValue(s: string): nat
    requires Digits(s)
  {
    if s == "" then 0 else WholeValue(s[..|s| - 1]) * 10 + DigitValue(s[|s| - 1])
  }

  function FractionValue(s: string): real
    requires Digits(s)
  {
    if s == "" then 0.0 else (DigitValue(s[0]) as real + FractionValue(s[1..])) / 10.0
  }

  /** The number a text denotes. */
  function Value(s: string): real
    requires IsNumber(s)
  {
    WholeValue(Whole(s)) as real + FractionValue(Fraction(s))
  }

  lemma {:induction false} FractionRange(s: string)
    requires Digits(s)
    ensures 0.0 <= FractionValue(s) < 1.0
    ensures s != "" && s[|s| - 1] != '0' ==> FractionValue(s) > 0.0
  {
    if s != "" {
      FractionRange(s[1..]);
    }
  }

  // ---------------------------------------------------------- canonical form

  /** No leading zeros but a single one before the dot, and no trailing zeros after it. */
  predicate IsCanonical(s: string) {
    && IsNumber(s) && (Whole(s)[0] == '0' ==> |Whole(s)| == 1)
    && (Fraction(s) != "" ==> Fraction(s)[|Fraction(s)| - 1] != '0')
  }

  lemma {:induction false} WholePositive(s: string)
    requires Digits(s) && s != "" && s[0] != '0'
    ensures WholeValue(s) > 0
  {
    if |s| > 1 {
      WholePositive(s[..|s| - 1]);
    }
  }

  lemma {:induction false} WholeUnique(a: string, b: string)
    requires Digits(a) && Digits(b) && WholeValue(a) == WholeValue(b)
    requires (a != "" ==> a[0] != '0') && (b != "" ==> b[0] != '0')
    ensures a == b
  {
    if a != "" && b != "" {
      var a', b' := a[..|a| - 1], b[..|b| - 1];
      WholeUnique(a', b');
      assert a == a' + [a[|a| - 1]] && b == b' + [b[|b| - 1]];
    } else if a != "" {
      WholePositive(a);
    } else if b != "" {
      WholePositive(b);
    }
  }

  lemma {:induction false} FractionUnique(a: string, b: string)
    requires Digits(a) && Digits(b) && FractionValue(a) == FractionValue(b)
    requires (a != "" ==> a[|a| - 1] != '0') && (b != "" ==> b[|b| - 1] != '0')
    ensures a == b
  {
    FractionRange(a);
    FractionRange(b);
    if a != "" && b != "" {
      FractionRange(a[1..]);
      FractionRange(b[1..]);
      assert DigitValue(a[0]) as real + FractionValue(a[1..]) == DigitValue(b[0]) as real + FractionValue(b[1..]);
      SplitUnique(DigitValue(a[0]), FractionValue(a[1..]), DigitValue(b[0]), FractionValue(b[1..]));
      FractionUnique(a[1..], b[1..]);
      assert a == [a[0]] + a[1..] && b == [b[0]] + b[1..];
    }
  }

  lemma SplitUnique(n: nat, f: real, n': nat, f': real)
    requires 0.0 <= f < 1.0 && 0.0 <= f' < 1.0 && n as real + f == n' as real + f'
    ensures n == n' && f == f'
  {
    assert -1.0 < n as real - n' as real < 1.0;
    assert (n - n') as real == n as real - n' as real;
  }

  lemma ZeroWhole(s: string)
    requires Digits(s) && s != "" && (s[0] == '0' ==> |s| == 1)
    ensures s == "0" <==> WholeValue(s) == 0
  {
    if s[0] != '0' {
      WholePositive(s);
    } else {
      assert s == [s[0]] == "0" && s[..0] == "";
    }
  }

  lemma CutAt(s: string, d: nat)
    requires d < |s|
    ensures s == s[..d] + ([s[d]] + s[d + 1..])
  {
  }

  /** The text is put together from its parts. */
  lemma FromParts(s: string)
    ensures s == Whole(s) + (if DotAt(s) < |s| then "." + Fraction(s) else "")
  {
    var d := DotAt(s);
    hide DotAt;
    if d < |s| {
      CutAt(s, d);
    } else {
      assert s[..d] == s && s + "" == s;
    }
  }

  /** Two canonical texts of one number are the same text. */
  lemma CanonicalUnique(a: string, b: string)
    requires IsCanonical(a) && IsCanonical(b) && Value(a) == Value(b)
    ensures a == b
  {
    FractionRange(Fraction(a));
    FractionRange(Fraction(b));
    SplitUnique(WholeValue(Whole(a)), FractionValue(Fraction(a)), WholeValue(Whole(b)), FractionValue(Fraction(b)));
    FractionUnique(Fraction(a), Fraction(b));
    ZeroWhole(Whole(a));
    ZeroWhole(Whole(b));
    if Whole(a) != "0" {
      WholeUnique(Whole(a), Whole(b));
    }
    FromParts(a);
    FromParts(b);
  }

  // ------------------------------------------------------------- the trimming

  function TrimZeros(s: string): (r: string)
    ensures |r| <= |s| && (r != "" ==> r[0] != '0') && (Digits(s) ==> Digits(r))
  {
    if s != "" && s[0] == '0' then TrimZeros(s[1..]) else s
  }

  function TrimTrailingZeros(s: string): (r: string)
    ensures |r| <= |s| && (r != "" ==> r[|r| - 1] != '0') && (Digits(s) ==> Digits(r))
  {
    if s != "" && s[|s| - 1] == '0' then TrimTrailingZeros(s[..|s| - 1]) else s
  }

  lemma {:induction false} LeadingZero(s: string)
    requires Digits(s)
    ensures Digits("0" + s) && WholeValue("0" + s) == WholeValue(s)
  {
    if s == "" {
      assert ("0" + s)[..0] == "";
    } else {
      LeadingZero(s[..|s| - 1]);
      assert ("0" + s)[..|s|] == "0" + s[..|s| - 1];
    }
  }

  lemma {:induction false} TrimZerosValue(s: string)
    requires Digits(s)
    ensures WholeValue(TrimZeros(s)) == WholeValue(s)
  {
    if s != "" && s[0] == '0' {
      assert s == "0" + s[1..];
      LeadingZero(s[1..]);
      TrimZerosValue(s[1..]);
    }
  }

  lemma {:induction false} TrailingZero(s: string)
    requires Digits(s)
    ensures Digits(s + "0") && FractionValue(s + "0") == FractionValue(s)
  {
    if s == "" {
      assert (s + "0")[1..] == "";
    } else {
      TrailingZero(s[1..]);
      assert (s + "0")[1..] == s[1..] + "0";
    }
  }

  lemma {:induction false} TrimTrailingValue(s: string)
    requires Digits(s)
    ensures FractionValue(TrimTrailingZeros(s)) == FractionValue(s)
  {
    if s != "" && s[|s| - 1] == '0' {
      assert s == s[..|s| - 1] + "0";
      TrailingZero(s[..|s| - 1]);
      TrimTrailingValue(s[..|s| - 1]);
    }
  }

  // ------------------------------------------------------------- construction

  /** The characters before `n` are digits, but for one dot at `d` if `d` comes before `n`. */
  predicate Scanned(s: string, n: nat, d: nat)
    requires n <= |s|
  {
    && (forall i :: 0 <= i < n && i != d ==> Digit(s[i]))
    && (d < n ==> s[d] == '.' && 0 < d && d + 1 < |s|)
  }

  lemma ScannedAll(s: string, d: nat)
    requires 0 < |s| <= MAX_LENGTH && Scanned(s, |s|, d) && d <= |s|
    ensures IsNumber(s) && DotAt(s) == d
  {
    assert DotAt(s) >= d && (d < |s| ==> DotAt(s) <= d);
  }

  /** Where the scan stops the text is no number. */
  lemma ScanStops(s: string, n: nat, d: nat)
    requires n < |s| && Scanned(s, n, d) && (d < n || d == |s|) && !Digit(s[n])
    requires !(s[n] == '.' && d == |s| && n > 0 && n + 1 < |s|)
    ensures !IsNumber(s)
  {
    assert d < n ==> DotAt(s) == d;
  }

  /** Trims, scans and canonicalises: exactly the decimal numbers pass, and each becomes the
      canonical text of the number it denotes. */
  method New(cs: Charset, text: string) returns (r: Option<string>)
    ensures r.Some? <==> IsNumber(Trim(cs, text))
    ensures r.Some? ==> Canonicalises(cs, text, r.value)
  {
    var value := Trim(cs, text);
    if value == "" || |value| > MAX_LENGTH {
      return None;
    }
    var dotSeen := false;
    ghost var d: nat := |value|;
    for index := 0 to |value|
      invariant Scanned(value, index, d) && (if dotSeen then d < index else d == |value|)
    {
      var c := value[index];
      if Digit(c) {
      } else if c == '.' && !dotSeen && index > 0 && index + 1 < |value| {
        dotSeen := true;
        d := index;
      } else {
        ScanStops(value, index, d);
        return None;
      }
    }
    ScannedAll(value, d);
    var whole, fraction := TrimZeros(Whole(value)), TrimTrailingZeros(Fraction(value));
    if whole == "" {
      whole := "0";
    }
    Assembled(value, whole, fraction);
    return Some(if fraction == "" then whole else whole + "." + fraction);
  }

  lemma Assembled(value: string, whole: string, fraction: string)
    requires IsNumber(value) && fraction == TrimTrailingZeros(Fraction(value))
    requires whole == if TrimZeros(Whole(value)) == "" then "0" else TrimZeros(Whole(value))
    ensures var s := if fraction == "" then whole else whole + "." + fraction; IsCanonical(s) && Value(s) == Value(value)
  {
    hide DotAt, TrimZeros, TrimTrailingZeros, FractionValue, WholeValue, Whole, Fraction, Digits;
    TrimmedWhole(Whole(value), whole);
    TrimTrailingValue(Fraction(value));
    Parts(whole, fraction);
    Shorter(value, whole, fraction);
  }

  lemma TrimmedWhole(digits: string, whole: string)
    requires Digits(digits) && digits != "" && whole == if TrimZeros(digits) == "" then "0" else TrimZeros(digits)
    ensures Digits(whole) && 0 < |whole| <= |digits| && (whole[0] == '0' ==> |whole| == 1)
    ensures WholeValue(whole) == WholeValue(digits)
  {
    hide TrimZeros;
    TrimZerosValue(digits);
    LeadingZero("");
    assert "0" + "" == "0";
  }

  lemma Shorter(value: string, whole: string, fraction: string)
    requires |whole| <= |Whole(value)| && |fraction| <= |Fraction(value)|
    ensures |if fraction == "" then whole else whole + "." + fraction| <= |value|
  {
  }

  lemma Parts(whole: string, fraction: string)
    requires Digits(whole) && Digits(fraction) && whole != ""
    ensures var s := if fraction == "" then whole else whole + "." + fraction;
            Whole(s) == whole && Fraction(s) == fraction && (DotAt(s) < |s| ==> fraction != "")
  {
    var s := if fraction == "" then whole else whole + "." + fraction;
    assert DotAt(s) >= |whole|;
    assert fraction != "" ==> s[|whole|] == '.';
  }

  // ------------------------------------------------------------------- laws

  /** What `New` promises of a result. */
  predicate Canonicalises(cs: Charset, text: string, r: string) {
    IsNumber(Trim(cs, text)) && IsCanonical(r) && Value(r) == Value(Trim(cs, text))
  }

  /** Two texts get the same canonical text exactly when they denote the same number. */
  lemma SameTextSameNumber(cs: Charset, a: string, b: string, ra: string, rb: string)
    requires Canonicalises(cs, a, ra) && Canonicalises(cs, b, rb)
    ensures ra == rb <==> Value(Trim(cs, a)) == Value(Trim(cs, b))
  {
    if Value(ra) == Value(rb) {
      CanonicalUnique(ra, rb);
    }
  }

  /** A canonical text is accepted and stays as it is, if no digit counts as white space. */
  lemma CanonicalIsFixed(cs: Charset, s: string, r: string)
    requires IsCanonical(s) && forall c :: Digit(c) ==> !cs.space(c)
    ensures Trim(cs, s) == s && IsNumber(Trim(cs, s))
    ensures Canonicalises(cs, s, r) ==> r == s
  {
    assert Digit(s[0]) by {
      assert s[0] == Whole(s)[0];
    }
    assert Digit(s[|s| - 1]) by {
      FromParts(s);
    }
    if Canonicalises(cs, s, r) {
      CanonicalUnique(r, s);
    }
  }
}
