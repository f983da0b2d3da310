/** Matching one provider station against the channels of a programme guide. */
module Reconcile {
  import opened Common
  import opened Text

  datatype Station = Station(
    id: string, name: string, tvgId: Option<string>, callsign: Option<string>, group: Option<string>, country: Option<string>)

  datatype Method = Manual | Previous | TvgId | Callsign | Alias | ExactName | Fuzzy

  datatype Evidence = StableBinding | ConfiguredAlias | Exact(key: string) | Ambiguous(key: string) | Similarity(value: real)

  datatype Mapping = Mapping(epgId: string, source: Method, confidence: real, evidence: Evidence)

  datatype Reason = NoCandidates | NotCorroborated | Shared(key: string) | NeedsReview

  datatype Decision = Applied(mapping: Mapping) | Review(mappings: seq<Mapping>, reason: Reason) | Unresolved(reason: Reason)

  datatype Context = Context(
    manual: map<string, string>, previous: map<string, string>, aliases: map<string, string>, fuzzyThreshold: real)

  /** Everything a decision depends on besides the candidates. */
  datatype Query = Query(cs: Charset, station: Station, context: Context)

  // ------------------------------------------------------------- similarity

  function Tokens(cs: Charset, s: string): set<string> {
    set w | w in Words(cs, Normalize(cs, s))
  }

  function TokenSimilarity(cs: Charset, a: string, b: string): real {
    var left, right := Tokens(cs, a), Tokens(cs, b);
    if left == {} || right == {} then 0.0 else 2.0 * |left * right| as real / (|left| + |right|) as real
  }

  lemma Intersect(a: set<string>, b: set<string>)
    ensures |a * b| <= |a| && |a * b| <= |b|
    ensures |a * b| == |a| ==> a <= b
  {
    assert a == a * b + (a - b) && b == a * b + (b - a);
    assert |a| == |a * b| + |a - b| && |b| == |a * b| + |b - a|;
  }

  /** Similarity lies between 0 and 1 and is 1 exactly for the same nonempty set of words. */
  lemma SimilarityRange(cs: Charset, a: string, b: string)
    ensures 0.0 <= TokenSimilarity(cs, a, b) <= 1.0 && TokenSimilarity(cs, a, b) == TokenSimilarity(cs, b, a)
    ensures TokenSimilarity(cs, a, b) == 1.0 <==> Tokens(cs, a) == Tokens(cs, b) != {}
  {
    var left, right := Tokens(cs, a), Tokens(cs, b);
    Intersect(left, right);
    Intersect(right, left);
    assert left * right == right * left;
    if left != {} && right != {} {
      var common, all := |left * right|, |left| + |right|;
      Ratio(common, all);
      assert common * 2 == all ==> common == |left| == |right|;
      assert left == right ==> left * right == left;
    }
  }

  lemma Ratio(common: nat, all: nat)
    requires 2 * common <= all && all > 0
    ensures 0.0 <= 2.0 * common as real / all as real <= 1.0
    ensures 2.0 * common as real / all as real == 1.0 <==> 2 * common == all
  {
  }

  predicate ScopeMatches(cs: Charset, a: Option<string>, b: Option<string>) {
    var left, right := NonBlank(cs, a), NonBlank(cs, b);
    left.Some? && right.Some? ==> Normalize(cs, left.value) == Normalize(cs, right.value)
  }

  predicate SameScope(cs: Charset, a: Station, b: Station) {
    ScopeMatches(cs, a.group, b.group) && ScopeMatches(cs, a.country, b.country)
  }

  // ----------------------------------------------------------------- stages

  /** The evidence in the order in which it is consulted. */
  datatype Stage = ByManual | ByPrevious | ByTvgId | ByCallsign | ByCallsignAlias | ByNameAlias | ByName | ByFuzzy

  function Rank(stage: Stage): nat {
    match stage
    case ByManual => 0 case ByPrevious => 1 case ByTvgId => 2 case ByCallsign => 3
    case ByCallsignAlias => 4 case ByNameAlias => 5 case ByName => 6 case ByFuzzy => 7
  }

  /** The stages that name an id instead of searching for one. */
  predicate Configured(stage: Stage) {
    stage.ByManual? || stage.ByPrevious? || stage.ByCallsignAlias? || stage.ByNameAlias?
  }

  function Lookup(m: map<string, string>, key: Option<string>): Option<string> {
    if key.Some? && key.value in m then Some(m[key.value]) else None
  }

  /** The id a configured stage names. */
  function Target(q: Query, stage: Stage): Option<string> {
    match stage
    case ByManual => Lookup(q.context.manual, Some(q.station.id))
    case ByPrevious => Lookup(q.context.previous, Some(q.station.id))
    case ByCallsignAlias =>
      Lookup(q.context.aliases, if q.station.callsign.Some? then Some(Normalize(q.cs, q.station.callsign.value)) else None)
    case ByNameAlias => Lookup(q.context.aliases, Some(Normalize(q.cs, q.station.name)))
    case _ => None
  }

  predicate SameText(cs: Charset, a: Option<string>, b: Option<string>) {
    NonBlank(cs, a).Some? && NonBlank(cs, b).Some? && EqIgnoreCase(NonBlank(cs, a).value, NonBlank(cs, b).value)
  }

  function Threshold(q: Query): real {
    if q.context.fuzzyThreshold > 0.0 then q.context.fuzzyThreshold else 0.82
  }

  /** Whether a candidate is supported by the evidence of a stage. */
  predicate Supports(q: Query, stage: Stage, c: Station) {
    match stage
    case ByTvgId =>
      var tvg := NonBlank(q.cs, q.station.tvgId);
      tvg.Some? && (SameText(q.cs, c.tvgId, q.station.tvgId) || EqIgnoreCase(c.id, tvg.value))
    case ByCallsign => SameText(q.cs, c.callsign, q.station.callsign)
    case ByName => Normalize(q.cs, q.station.name) != "" && Normalize(q.cs, c.name) == Normalize(q.cs, q.station.name)
    case ByFuzzy => SameScope(q.cs, q.station, c) && TokenSimilarity(q.cs, q.station.name, c.name) >= Threshold(q)
    case _ => Target(q, stage) == Some(c.id)
  }

  function Label(stage: Stage): string {
    match stage
    case ByTvgId => "tvg-id" case ByCallsign => "callsign" case _ => "name"
  }

  function MethodOf(stage: Stage): Method {
    match stage
    case ByManual => Manual case ByPrevious => Previous case ByTvgId => TvgId case ByCallsign => Callsign
    case ByCallsignAlias => Alias case ByNameAlias => Alias case ByName => ExactName case ByFuzzy => Fuzzy
  }

  function Confidence(q: Query, stage: Stage, c: Station): real {
    match stage
    case ByManual => 1.0 case ByPrevious => 1.0 case ByTvgId => 0.99 case ByCallsign => 0.98
    case ByCallsignAlias => 0.97 case ByNameAlias => 0.97 case ByName => 0.95
    case ByFuzzy => TokenSimilarity(q.cs, q.station.name, c.name)
  }

  /** A single supported candidate as it is applied. */
  function Single(q: Query, stage: Stage, c: Station): Mapping {
    Mapping(c.id, MethodOf(stage), Confidence(q, stage, c),
            if stage.ByManual? || stage.ByPrevious? then StableBinding
            else if Configured(stage) then ConfiguredAlias
            else Exact(Label(stage)))
  }

  /** A supported candidate as it is listed for review. */
  function Listed(q: Query, stage: Stage, c: Station): Mapping {
    var confidence := Confidence(q, stage, c);
    Mapping(c.id, MethodOf(stage), confidence, if stage.ByFuzzy? then Similarity(confidence) else Ambiguous(Label(stage)))
  }

  /** Review order: higher confidence first, then the smaller id. */
  predicate Before(x: Mapping, y: Mapping) {
    x.confidence > y.confidence || (x.confidence == y.confidence && StringLe(x.epgId, y.epgId))
  }

  ghost predicate Sorted(ms: seq<Mapping>) {
    forall i, j :: 0 <= i < j < |ms| ==> Before(ms[i], ms[j])
  }

  // ---------------------------------------------------------- specification

  function Supported(q: Query, stage: Stage, cs: seq<Station>): seq<Station> {
    if cs == [] then [] else (if Supports(q, stage, cs[0]) then [cs[0]] else []) + Supported(q, stage, cs[1..])
  }

  function ListAll(q: Query, stage: Stage, cs: seq<Station>): seq<Mapping> {
    seq(|cs|, i requires 0 <= i < |cs| => Listed(q, stage, cs[i]))
  }

  ghost predicate Silent(q: Query, stage: Stage, cs: seq<Station>) {
    forall c :: c in cs ==> !Supports(q, stage, c)
  }

  /** The stage that decides: it has a match and no earlier stage has one. */
  ghost predicate Decides(q: Query, stage: Stage, cs: seq<Station>) {
    !Silent(q, stage, cs) && forall earlier :: Rank(earlier) < Rank(stage) ==> Silent(q, earlier, cs)
  }

  /** How the deciding stage decides. */
  ghost predicate Outcome(q: Query, stage: Stage, cs: seq<Station>, d: Decision) {
    var matches := Supported(q, stage, cs);
    if Configured(stage) || (!stage.ByFuzzy? && |matches| == 1) then
      d.Applied? && exists c :: c in matches && d.mapping == Single(q, stage, c)
    else
      && d.Review? && d.reason == (if stage.ByFuzzy? then NeedsReview else Shared(Label(stage)))
      && Sorted(d.mappings) && multiset(d.mappings) == multiset(ListAll(q, stage, matches))
  }

  /** The decision the evidence calls for. */
  ghost predicate Decided(q: Query, cs: seq<Station>, d: Decision) {
    if forall stage :: Silent(q, stage, cs)
    then d == Unresolved(if cs == [] then NoCandidates else NotCorroborated)
    else exists stage :: Decides(q, stage, cs) && Outcome(q, stage, cs, d)
  }

  lemma {:induction false} SupportedExactly(q: Query, stage: Stage, cs: seq<Station>)
    ensures forall c :: c in Supported(q, stage, cs) <==> c in cs && Supports(q, stage, c)
    ensures Supported(q, stage, cs) == [] <==> Silent(q, stage, cs)
  {
    if cs != [] {
      SupportedExactly(q, stage, cs[1..]);
      assert cs == [cs[0]] + cs[1..];
    }
    assert forall c :: c in Supported(q, stage, cs) <==> c in cs && Supports(q, stage, c);
    if Supported(q, stage, cs) != [] {
      assert Supported(q, stage, cs)[0] in Supported(q, stage, cs);
    }
  }

  // ------------------------------------------------------------ permutation

  lemma {:induction false} SupportedConcat(q: Query, stage: Stage, a: seq<Station>, b: seq<Station>)
    ensures Supported(q, stage, a + b) == Supported(q, stage, a) + Supported(q, stage, b)
  {
    hide Supports;
    if a == [] {
      assert a + b == b;
    } else {
      assert (a + b)[1..] == a[1..] + b;
      SupportedConcat(q, stage, a[1..], b);
    }
  }

  lemma ListConcat(q: Query, stage: Stage, a: seq<Station>, b: seq<Station>)
    ensures ListAll(q, stage, a + b) == ListAll(q, stage, a) + ListAll(q, stage, b)
  {
  }

  lemma Members<T>(a: seq<T>, b: seq<T>)
    requires multiset(a) == multiset(b)
    ensures |a| == |b| && forall x :: x in a <==> x in b
  {
    assert |a| == |multiset(a)| && |b| == |multiset(b)|;
    assert forall x :: x in a <==> x in multiset(a);
    assert forall x :: x in b <==> x in multiset(b);
  }

  lemma CutAt<T>(a: seq<T>, i: nat)
    requires i < |a|
    ensures multiset(a) == multiset{a[i]} + multiset(a[..i] + a[i + 1..])
  {
    assert a == a[..i] + ([a[i]] + a[i + 1..]);
    assert multiset(a) == multiset(a[..i]) + (multiset([a[i]]) + multiset(a[i + 1..]));
  }

  lemma CutHead<T>(a: seq<T>)
    requires a != []
    ensures multiset(a) == multiset{a[0]} + multiset(a[1..])
  {
    assert a == [a[0]] + a[1..];
  }

  lemma Cancel<T>(x: T, m: multiset<T>, n: multiset<T>)
    requires multiset{x} + m == multiset{x} + n
    ensures m == n
  {
    assert m == (multiset{x} + m) - multiset{x} && n == (multiset{x} + n) - multiset{x};
  }

  lemma Place<T>(b: seq<T>, x: T) returns (i: nat)
    requires x in b
    ensures i < |b| && b[i] == x
  {
    i :| i < |b| && b[i] == x;
  }

  /** Taking an element out of a permutation. */
  lemma TakeOut<T>(a: seq<T>, b: seq<T>) returns (i: nat)
    requires multiset(a) == multiset(b) && a != []
    ensures i < |b| && b[i] == a[0] && multiset(a[1..]) == multiset(b[..i] + b[i + 1..])
  {
    Members(a, b);
    assert a[0] in a;
    i := Place(b, a[0]);
    CutHead(a);
    CutAt(b, i);
    Cancel(a[0], multiset(a[1..]), multiset(b[..i] + b[i + 1..]));
  }

  lemma PermutedStep(q: Query, stage: Stage, x: Station, a: seq<Station>, l: seq<Station>, r: seq<Station>)
    requires multiset(Supported(q, stage, a)) == multiset(Supported(q, stage, l + r))
    requires multiset(ListAll(q, stage, Supported(q, stage, a))) == multiset(ListAll(q, stage, Supported(q, stage, l + r)))
    ensures multiset(Supported(q, stage, [x] + a)) == multiset(Supported(q, stage, l + ([x] + r)))
    ensures multiset(ListAll(q, stage, Supported(q, stage, [x] + a)))
         == multiset(ListAll(q, stage, Supported(q, stage, l + ([x] + r))))
  {
    hide Supports, Supported, Listed, ListAll;
    SupportedConcat(q, stage, [x], a);
    SupportedConcat(q, stage, [x], r);
    SupportedConcat(q, stage, l, [x] + r);
    SupportedConcat(q, stage, l, r);
    var one, sl, sr := Supported(q, stage, [x]), Supported(q, stage, l), Supported(q, stage, r);
    ListConcat(q, stage, one, Supported(q, stage, a));
    ListConcat(q, stage, one, sr);
    ListConcat(q, stage, sl, one + sr);
    ListConcat(q, stage, sl, sr);
  }

  /** Permuting the candidates permutes the supported ones and their listing. */
  lemma {:induction false} Permuted(q: Query, stage: Stage, a: seq<Station>, b: seq<Station>)
    requires multiset(a) == multiset(b)
    ensures multiset(Supported(q, stage, a)) == multiset(Supported(q, stage, b))
    ensures multiset(ListAll(q, stage, Supported(q, stage, a))) == multiset(ListAll(q, stage, Supported(q, stage, b)))
    decreases |a|
  {
    hide Supports, Supported, ListAll;
    Members(a, b);
    if a != [] {
      var i := TakeOut(a, b);
      Permuted(q, stage, a[1..], b[..i] + b[i + 1..]);
      PermutedStep(q, stage, a[0], a[1..], b[..i], b[i + 1..]);
      assert a == [a[0]] + a[1..] && b == b[..i] + ([a[0]] + b[i + 1..]);
    } else {
      assert b == [];
    }
  }

  /** Mappings of which neither goes first are the same. */
  ghost predicate Tight(ms: seq<Mapping>) {
    forall x, y :: x in ms && y in ms && Before(x, y) && Before(y, x) ==> x == y
  }

  lemma FirstIsLeast(a: seq<Mapping>, x: Mapping)
    requires Sorted(a) && x in a
    ensures a[0] == x || Before(a[0], x)
  {
    hide Before;
    var i := Place(a, x);
    assert i > 0 ==> Before(a[0], a[i]);
  }

  lemma SameHead(a: seq<Mapping>, b: seq<Mapping>)
    requires Sorted(a) && Sorted(b) && multiset(a) == multiset(b) && Tight(a) && a != []
    ensures b != [] && a[0] == b[0] && multiset(a[1..]) == multiset(b[1..])
  {
    Members(a, b);
    assert a[0] in a && b[0] in b;
    FirstIsLeast(a, b[0]);
    FirstIsLeast(b, a[0]);
    hide Before, Sorted;
    assert a[0] == b[0];
    CutHead(a);
    CutHead(b);
    Cancel(a[0], multiset(a[1..]), multiset(b[1..]));
  }

  lemma TailSorted(a: seq<Mapping>)
    requires Sorted(a) && Tight(a) && a != []
    ensures Sorted(a[1..]) && Tight(a[1..])
  {
    hide Before;
  }

  /** Two sorted lists of the same mappings, equal where neither goes first, are the same list. */
  lemma {:induction false} SortedIsUnique(a: seq<Mapping>, b: seq<Mapping>)
    requires Sorted(a) && Sorted(b) && multiset(a) == multiset(b) && Tight(a) && Tight(b)
    ensures a == b
  {
    Members(a, b);
    hide Sorted, Tight;
    if a != [] {
      SameHead(a, b);
      TailSorted(a);
      TailSorted(b);
      SortedIsUnique(a[1..], b[1..]);
      assert a == [a[0]] + a[1..] && b == [b[0]] + b[1..];
    }
  }

  lemma ListedApart(q: Query, stage: Stage, cs: seq<Station>, x: Mapping, y: Mapping)
    requires x in ListAll(q, stage, cs) && y in ListAll(q, stage, cs) && Before(x, y) && Before(y, x)
    ensures x == y
  {
    StringTotal(x.epgId, y.epgId);
  }

  lemma ReviewUnique(q: Query, stage: Stage, cs: seq<Station>, a: seq<Mapping>, b: seq<Mapping>)
    requires Sorted(a) && Sorted(b) && multiset(a) == multiset(ListAll(q, stage, cs)) == multiset(b)
    ensures a == b
  {
    hide Before, ListAll, Sorted;
    Members(a, ListAll(q, stage, cs));
    Members(b, ListAll(q, stage, cs));
    forall x, y | x in a && y in a && Before(x, y) && Before(y, x) ensures x == y {
      ListedApart(q, stage, cs, x, y);
    }
    SortedIsUnique(a, b);
  }

  lemma SingleUnique(q: Query, stage: Stage, cs: seq<Station>, cs': seq<Station>, c: Station, c': Station)
    requires multiset(Supported(q, stage, cs)) == multiset(Supported(q, stage, cs'))
    requires c in Supported(q, stage, cs) && c' in Supported(q, stage, cs')
    requires Configured(stage) || |Supported(q, stage, cs)| == 1
    ensures Single(q, stage, c) == Single(q, stage, c')
  {
    hide Supports, Supported, Single, Configured;
    SupportedExactly(q, stage, cs);
    SupportedExactly(q, stage, cs');
    Members(Supported(q, stage, cs), Supported(q, stage, cs'));
    if Configured(stage) {
      NamedOnce(q, stage, c, c');
    } else {
      OneElement(Supported(q, stage, cs), c, c');
    }
  }

  lemma OneElement<T>(s: seq<T>, x: T, y: T)
    requires |s| == 1 && x in s && y in s
    ensures x == y
  {
  }

  /** A configured stage supports candidates of one id only. */
  lemma NamedOnce(q: Query, stage: Stage, c: Station, c': Station)
    requires Configured(stage) && Supports(q, stage, c) && Supports(q, stage, c')
    ensures Single(q, stage, c) == Single(q, stage, c')
  {
    hide Target, TokenSimilarity;
  }

  lemma OutcomeUnique(q: Query, stage: Stage, cs: seq<Station>, cs': seq<Station>, d: Decision, d': Decision)
    requires multiset(cs) == multiset(cs') && Outcome(q, stage, cs, d) && Outcome(q, stage, cs', d')
    ensures d == d'
  {
    hide Before, Sorted, Supports, ListAll, Supported, Single, Configured;
    var matches, matches' := Supported(q, stage, cs), Supported(q, stage, cs');
    Permuted(q, stage, cs, cs');
    Members(matches, matches');
    if d.Review? {
      ReviewUnique(q, stage, matches, d.mappings, d'.mappings);
    } else {
      var c :| c in matches && d.mapping == Single(q, stage, c);
      var c' :| c' in matches' && d'.mapping == Single(q, stage, c');
      SingleUnique(q, stage, cs, cs', c, c');
    }
  }

  lemma RankUnique(a: Stage, b: Stage)
    ensures Rank(a) == Rank(b) <==> a == b
  {
  }

  lemma SilentAlike(q: Query, stage: Stage, cs: seq<Station>, cs': seq<Station>)
    requires multiset(cs) == multiset(cs')
    ensures Silent(q, stage, cs) <==> Silent(q, stage, cs')
  {
    hide Supports;
    Members(cs, cs');
  }

  /** At most one stage decides. */
  lemma DecidesUnique(q: Query, cs: seq<Station>, s: Stage, s': Stage)
    requires Decides(q, s, cs) && Decides(q, s', cs)
    ensures s == s'
  {
    hide Silent, Rank;
    RankUnique(s, s');
  }

  lemma DecidesAlike(q: Query, s: Stage, cs: seq<Station>, cs': seq<Station>)
    requires multiset(cs) == multiset(cs') && Decides(q, s, cs)
    ensures Decides(q, s, cs')
  {
    hide Silent, Rank;
    forall stage ensures Silent(q, stage, cs) <==> Silent(q, stage, cs') {
      SilentAlike(q, stage, cs, cs');
    }
  }

  /** The decision does not depend on the order of the candidates, whatever ids repeat and
      whatever confidences tie. */
  lemma DecisionIgnoresOrder(q: Query, cs: seq<Station>, cs': seq<Station>, d: Decision, d': Decision)
    requires multiset(cs) == multiset(cs') && Decided(q, cs, d) && Decided(q, cs', d')
    ensures d == d'
  {
    hide Outcome, Decides, Silent;
    Members(cs, cs');
    forall stage ensures Silent(q, stage, cs) <==> Silent(q, stage, cs') {
      SilentAlike(q, stage, cs, cs');
    }
    if !(forall stage :: Silent(q, stage, cs)) {
      var s :| Decides(q, s, cs) && Outcome(q, s, cs, d);
      var s' :| Decides(q, s', cs') && Outcome(q, s', cs', d');
      DecidesAlike(q, s, cs, cs');
      DecidesUnique(q, cs', s, s');
      OutcomeUnique(q, s, cs, cs', d, d');
    }
  }
}
