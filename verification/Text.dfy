/** Text as the matching code sees it: words, folding to lower case, trimming and ordering. */
module Text {
  import opened Common

  /** Which characters are letters or digits, and which are white space. */
  datatype Charset = Charset(alphanumeric: char -> bool, space: char -> bool)

  /** What Unicode promises of the two classes. */
  ghost predicate Lawful(cs: Charset) {
    && cs.space(' ') && !cs.alphanumeric(' ')
    && (forall c :: cs.alphanumeric(c) ==> !cs.space(c) && cs.alphanumeric(Lower(c)))
  }

  /** ASCII lower case. */
  function Lower(c: char): char {
    if 'A' <= c <= 'Z' then (c as int + 32) as char else c
  }

  predicate EqIgnoreCase(a: string, b: string) {
    |a| == |b| && forall i :: 0 <= i < |a| ==> Lower(a[i]) == Lower(b[i])
  }

  const UPPER := "ABCDEFGHIJKLMNOPQRSTUVWXYZ"
  const LOWER := "abcdefghijklmnopqrstuvwxyz"

  /** The 26 capital letters have their small ones. */
  lemma LowerMeans(i: nat)
    requires i < 26
    ensures Lower(UPPER[i]) == LOWER[i]
  {
  }

  /** Every other character has itself. */
  lemma OthersStay(c: char)
    ensures c !in UPPER ==> Lower(c) == c
  {
    if 'A' <= c <= 'Z' {
      var i := c as int - 'A' as int;
      assert c == UPPER[i];
    }
  }

  function LowerAll(s: string): string {
    seq(|s|, i requires 0 <= i < |s| => Lower(s[i]))
  }

  /** Texts are equal up to case exactly if they are the same in lower case. */
  lemma EqIgnoreCaseMeans(a: string, b: string)
    ensures EqIgnoreCase(a, b) <==> LowerAll(a) == LowerAll(b)
  {
    assert |LowerAll(a)| == |a| && |LowerAll(b)| == |b|;
    assert forall i :: 0 <= i < |a| ==> LowerAll(a)[i] == Lower(a[i]);
    assert forall i :: 0 <= i < |b| ==> LowerAll(b)[i] == Lower(b[i]);
  }

  function TrimStart(cs: Charset, s: string): string {
    if s != "" && cs.space(s[0]) then TrimStart(cs, s[1..]) else s
  }

  function TrimEnd(cs: Charset, s: string): string {
    if s != "" && cs.space(s[|s| - 1]) then TrimEnd(cs, s[..|s| - 1]) else s
  }

  function Trim(cs: Charset, s: string): string {
    TrimEnd(cs, TrimStart(cs, s))
  }

  /** `t` is `s` from `i` on without the white space around it. */
  ghost predicate TrimmedAt(cs: Charset, s: string, t: string, i: nat) {
    && i + |t| <= |s| && s[i..i + |t|] == t
    && (forall k :: 0 <= k < i ==> cs.space(s[k])) && (forall k :: i + |t| <= k < |s| ==> cs.space(s[k]))
    && (t != "" ==> !cs.space(t[0]) && !cs.space(t[|t| - 1]))
  }

  lemma {:induction false} TrimStartAt(cs: Charset, s: string)
    ensures var n := |s| - |TrimStart(cs, s)|;
            && 0 <= n && s[n..] == TrimStart(cs, s) && (forall k :: 0 <= k < n ==> cs.space(s[k]))
            && (n < |s| ==> !cs.space(s[n]))
  {
    if s != "" && cs.space(s[0]) {
      TrimStartAt(cs, s[1..]);
    }
  }

  lemma {:induction false} TrimEndAt(cs: Charset, s: string)
    ensures var n := |TrimEnd(cs, s)|;
            && n <= |s| && s[..n] == TrimEnd(cs, s) && (forall k :: n <= k < |s| ==> cs.space(s[k]))
            && (n > 0 ==> !cs.space(s[n - 1]))
  {
    if s != "" && cs.space(s[|s| - 1]) {
      TrimEndAt(cs, s[..|s| - 1]);
    }
  }

  /** Trimming takes away the outer white space and nothing else. */
  lemma TrimMeans(cs: Charset, s: string)
    ensures exists i: nat :: TrimmedAt(cs, s, Trim(cs, s), i)
  {
    var rest, t := TrimStart(cs, s), Trim(cs, s);
    TrimStartAt(cs, s);
    TrimEndAt(cs, rest);
    hide TrimStart, TrimEnd;
    var n: nat := |s| - |rest|;
    assert forall k :: 0 <= k < |rest| ==> rest[k] == s[n + k];
    forall k | n + |t| <= k < |s| ensures cs.space(s[k]) {
      assert cs.space(rest[k - n]);
    }
    assert s[n..n + |t|] == t;
    assert TrimmedAt(cs, s, t, n);
  }

  function NonBlank(cs: Charset, s: Option<string>): Option<string> {
    if s.Some? && Trim(cs, s.value) != "" then Some(Trim(cs, s.value)) else None
  }

  // ------------------------------------------------------------- normalise

  function Fold(cs: Charset, s: string): string {
    seq(|s|, i requires 0 <= i < |s| => if cs.alphanumeric(s[i]) then Lower(s[i]) else ' ')
  }

  /** The length of the leading word. */
  function WordEnd(cs: Charset, s: string): (n: nat)
    ensures n <= |s| && (forall i :: 0 <= i < n ==> !cs.space(s[i])) && (n < |s| ==> cs.space(s[n]))
  {
    if s == "" || cs.space(s[0]) then 0 else 1 + WordEnd(cs, s[1..])
  }

  /** `split_whitespace` */
  function Words(cs: Charset, s: string): seq<string>
    decreases |s|
  {
    if s == "" then []
    else if cs.space(s[0]) then Words(cs, s[1..])
    else [s[..WordEnd(cs, s)]] + Words(cs, s[WordEnd(cs, s)..])
  }

  function Join(words: seq<string>): string {
    if words == [] then "" else if |words| == 1 then words[0] else words[0] + " " + Join(words[1..])
  }

  function Normalize(cs: Charset, s: string): string {
    Join(Words(cs, Fold(cs, s)))
  }

  /** A folded character of a word. */
  predicate Folded(cs: Charset, c: char) {
    cs.alphanumeric(c) && Lower(c) == c
  }

  predicate FoldedWord(cs: Charset, w: string) {
    w != "" && forall i :: 0 <= i < |w| ==> Folded(cs, w[i])
  }

  lemma {:induction false} WordsAreFolded(cs: Charset, s: string)
    requires Lawful(cs)
    requires forall i :: 0 <= i < |s| ==> s[i] == ' ' || Folded(cs, s[i])
    ensures forall k :: 0 <= k < |Words(cs, s)| ==> FoldedWord(cs, Words(cs, s)[k])
    decreases |s|
  {
    if s == "" {
    } else if cs.space(s[0]) {
      WordsAreFolded(cs, s[1..]);
    } else {
      WordsAreFolded(cs, s[WordEnd(cs, s)..]);
    }
  }

  lemma {:induction false} WordEndAt(cs: Charset, w: string, rest: string)
    requires forall i :: 0 <= i < |w| ==> !cs.space(w[i])
    requires rest == "" || cs.space(rest[0])
    ensures WordEnd(cs, w + rest) == |w|
  {
    if w != "" {
      assert (w + rest)[1..] == w[1..] + rest;
      WordEndAt(cs, w[1..], rest);
    }
  }

  lemma HeadWord(cs: Charset, w: string, rest: string)
    requires w != "" && (forall i :: 0 <= i < |w| ==> !cs.space(w[i])) && (rest == "" || cs.space(rest[0]))
    ensures Words(cs, w + rest) == [w] + Words(cs, rest)
  {
    WordEndAt(cs, w, rest);
    hide WordEnd;
    assert (w + rest)[0] == w[0] && (w + rest)[..|w|] == w && (w + rest)[|w|..] == rest;
  }

  lemma FoldedIsWord(cs: Charset, w: string)
    requires Lawful(cs) && FoldedWord(cs, w)
    ensures w != "" && forall i :: 0 <= i < |w| ==> !cs.space(w[i])
  {
  }

  lemma SpaceFirst(cs: Charset, s: string)
    requires cs.space(' ')
    ensures Words(cs, " " + s) == Words(cs, s)
  {
    assert (" " + s)[1..] == s;
  }

  lemma {:induction false} SplitJoin(cs: Charset, words: seq<string>)
    requires Lawful(cs) && forall k :: 0 <= k < |words| ==> FoldedWord(cs, words[k])
    ensures Words(cs, Join(words)) == words
  {
    if words != [] {
      var w := words[0];
      var rest := if |words| == 1 then "" else " " + Join(words[1..]);
      FoldedIsWord(cs, w);
      assert cs.space(' ');
      assert Join(words) == w + rest;
      HeadWord(cs, w, rest);
      SpaceFirst(cs, Join(words[1..]));
      hide Lawful, Words;
      SplitJoin(cs, words[1..]);
      assert words == [w] + words[1..];
      if |words| == 1 {
        assert words[1..] == [] && Words(cs, "") == [] by {
          EmptyWords(cs);
        }
      }
    }
  }

  lemma EmptyWords(cs: Charset)
    ensures Words(cs, "") == []
  {
  }

  lemma {:induction false} JoinIsFolded(cs: Charset, words: seq<string>)
    requires Lawful(cs) && forall k :: 0 <= k < |words| ==> FoldedWord(cs, words[k])
    ensures forall i :: 0 <= i < |Join(words)| ==> Join(words)[i] == ' ' || Folded(cs, Join(words)[i])
  {
    if |words| > 0 {
      assert FoldedWord(cs, words[0]);
      JoinIsFolded(cs, words[1..]);
    }
  }

  lemma FoldOfFolded(cs: Charset, s: string)
    requires Lawful(cs) && forall i :: 0 <= i < |s| ==> s[i] == ' ' || Folded(cs, s[i])
    ensures Fold(cs, s) == s
  {
  }

  /** Splitting a normalised text gives back the words it was made of, and normalising it
      again changes nothing. */
  lemma NormalizeIsStable(cs: Charset, s: string)
    requires Lawful(cs)
    ensures Words(cs, Normalize(cs, s)) == Words(cs, Fold(cs, s))
    ensures Normalize(cs, Normalize(cs, s)) == Normalize(cs, s)
  {
    var words := Words(cs, Fold(cs, s));
    WordsAreFolded(cs, Fold(cs, s));
    SplitJoin(cs, words);
    JoinIsFolded(cs, words);
    FoldOfFolded(cs, Join(words));
  }

  /** The letters and digits of a text, in lower case. */
  function Letters(cs: Charset, s: string): string {
    if s == "" then "" else (if cs.alphanumeric(s[0]) then [Lower(s[0])] else "") + Letters(cs, s[1..])
  }

  lemma {:induction false} LettersConcat(cs: Charset, a: string, b: string)
    ensures Letters(cs, a + b) == Letters(cs, a) + Letters(cs, b)
  {
    if a == "" {
      assert a + b == b;
    } else {
      assert (a + b)[1..] == a[1..] + b;
      LettersConcat(cs, a[1..], b);
    }
  }

  lemma {:induction false} LettersFold(cs: Charset, s: string)
    requires Lawful(cs)
    ensures Letters(cs, Fold(cs, s)) == Letters(cs, s)
  {
    if s != "" {
      LettersFold(cs, s[1..]);
      assert Fold(cs, s)[1..] == Fold(cs, s[1..]);
    }
  }

  lemma LettersSpace(cs: Charset, s: string)
    requires Lawful(cs) && s != "" && cs.space(s[0])
    ensures Letters(cs, s) == Letters(cs, s[1..])
  {
    assert !cs.alphanumeric(s[0]);
  }

  lemma {:induction false} LettersWords(cs: Charset, s: string)
    requires Lawful(cs)
    ensures Letters(cs, Join(Words(cs, s))) == Letters(cs, s)
    decreases |s|
  {
    if s == "" {
    } else if cs.space(s[0]) {
      LettersSpace(cs, s);
      LettersWords(cs, s[1..]);
    } else {
      var n := WordEnd(cs, s);
      var w, rest := s[..n], s[n..];
      var words := Words(cs, rest);
      assert s == w + rest && Words(cs, s) == [w] + words;
      LettersWords(cs, rest);
      LettersConcat(cs, w, rest);
      JoinLetters(cs, w, words);
    }
  }

  lemma JoinLetters(cs: Charset, w: string, words: seq<string>)
    requires Lawful(cs)
    ensures Letters(cs, Join([w] + words)) == Letters(cs, w) + Letters(cs, Join(words))
  {
    if words != [] {
      assert ([w] + words)[1..] == words;
      var tail := " " + Join(words);
      assert Join([w] + words) == w + tail && tail[1..] == Join(words);
      LettersConcat(cs, w, tail);
      LettersSpace(cs, tail);
    }
  }

  /** Normalising keeps the letters and digits of a text in order, in lower case. */
  lemma NormalizeKeepsLetters(cs: Charset, s: string)
    requires Lawful(cs)
    ensures Letters(cs, Normalize(cs, s)) == Letters(cs, s)
  {
    LettersWords(cs, Fold(cs, s));
    LettersFold(cs, s);
  }

  // ------------------------------------------------------------------ order

  predicate StringLe(a: string, b: string) {
    a == "" || (b != "" && (a[0] < b[0] || (a[0] == b[0] && StringLe(a[1..], b[1..]))))
  }

  lemma StringTotal(a: string, b: string)
    ensures StringLe(a, b) || StringLe(b, a)
    ensures StringLe(a, b) && StringLe(b, a) ==> a == b
  {
    if a != "" && b != "" && a[0] == b[0] {
      StringTotal(a[1..], b[1..]);
      assert a == [a[0]] + a[1..] && b == [b[0]] + b[1..];
    }
  }

  lemma StringTransitive(a: string, b: string, c: string)
    requires StringLe(a, b) && StringLe(b, c)
    ensures StringLe(a, c)
  {
    if a != "" && a[0] == b[0] && b[0] == c[0] {
      StringTransitive(a[1..], b[1..], c[1..]);
    }
  }

  /** Up to `k` the texts agree, and there the first one ends or has the smaller character. */
  ghost predicate FirstDifference(a: string, b: string, k: nat) {
    k <= |a| && k <= |b| && a[..k] == b[..k] && (k == |a| || (k < |b| && a[k] < b[k]))
  }

  lemma HeadsInOrder(a: string, b: string)
    requires a != "" && b != ""
    ensures forall k: nat :: FirstDifference(a, b, k) ==> a[0] <= b[0]
  {
    forall k: nat | FirstDifference(a, b, k) ensures a[0] <= b[0] {
      if k > 0 {
        assert a[..k][0] == a[0] && b[..k][0] == b[0];
      }
    }
  }

  /** The order is that of dictionaries. */
  lemma {:induction false} StringLeMeans(a: string, b: string)
    ensures StringLe(a, b) <==> exists k: nat :: FirstDifference(a, b, k)
  {
    if a == "" {
      assert FirstDifference(a, b, 0);
    } else if b != "" {
      StringLeMeans(a[1..], b[1..]);
      if a[0] < b[0] {
        assert FirstDifference(a, b, 0);
      } else if a[0] == b[0] {
        assert a == [a[0]] + a[1..] && b == [b[0]] + b[1..];
        if k: nat :| FirstDifference(a[1..], b[1..], k) {
          assert a[..k + 1] == [a[0]] + a[1..][..k] && b[..k + 1] == [b[0]] + b[1..][..k];
          assert FirstDifference(a, b, k + 1);
        }
        if k: nat :| FirstDifference(a, b, k) {
          assert k > 0 && a[1..][..k - 1] == a[..k][1..] && b[1..][..k - 1] == b[..k][1..];
          assert FirstDifference(a[1..], b[1..], k - 1);
        }
      } else {
        HeadsInOrder(a, b);
      }
    }
  }
}
