/** What the matching procedure decides, said in the texts of the station and of the candidates. */
module EpgLaws {
  import opened Common
  import opened Text
  import opened Reconcile
  import opened EpgRefresh

  // --------------------------------------------------------------- evidence

  /** A text that is more than white space. */
  predicate Filled(cs: Charset, s: Option<string>) {
    s.Some? && Trim(cs, s.value) != ""
  }

  /** Both texts are filled and the same up to ASCII case and outer white space. */
  predicate Alike(cs: Charset, a: Option<string>, b: Option<string>) {
    Filled(cs, a) && Filled(cs, b) && EqIgnoreCase(Trim(cs, a.value), Trim(cs, b.value))
  }

  predicate Names(m: map<string, string>, key: string, id: string) {
    key in m && m[key] == id
  }

  predicate TvgAlike(q: Query, c: Station) {
    || Alike(q.cs, c.tvgId, q.station.tvgId)
    || (Filled(q.cs, q.station.tvgId) && EqIgnoreCase(c.id, Trim(q.cs, q.station.tvgId.value)))
  }

  predicate CallsignAlike(q: Query, c: Station) {
    Alike(q.cs, c.callsign, q.station.callsign)
  }

  predicate CallsignNames(q: Query, c: Station) {
    q.station.callsign.Some? && Names(q.context.aliases, Normalize(q.cs, q.station.callsign.value), c.id)
  }

  predicate NameNames(q: Query, c: Station) {
    Names(q.context.aliases, Normalize(q.cs, q.station.name), c.id)
  }

  predicate NameAlike(q: Query, c: Station) {
    Normalize(q.cs, c.name) == Normalize(q.cs, q.station.name) != ""
  }

  /** Two scopes that are both filled and differ. */
  predicate Conflict(cs: Charset, a: Option<string>, b: Option<string>) {
    Filled(cs, a) && Filled(cs, b) && Normalize(cs, Trim(cs, a.value)) != Normalize(cs, Trim(cs, b.value))
  }

  function WordSet(cs: Charset, s: string): set<string> {
    set w | w in Words(cs, Normalize(cs, s))
  }

  /** Scopes do not conflict, and twice the common words are at least the threshold's part of all. */
  predicate SimilarInScope(q: Query, c: Station) {
    var ours, theirs := WordSet(q.cs, q.station.name), WordSet(q.cs, c.name);
    var threshold := if q.context.fuzzyThreshold > 0.0 then q.context.fuzzyThreshold else 0.82;
    && !Conflict(q.cs, q.station.group, c.group) && !Conflict(q.cs, q.station.country, c.country)
    && ours != {} && theirs != {}
    && 2.0 * |ours * theirs| as real >= threshold * (|ours| + |theirs|) as real
  }

  /** Whether the evidence at a place in the order speaks for a candidate. */
  predicate Speaks(q: Query, place: nat, c: Station) {
    match place
    case 0 => Names(q.context.manual, q.station.id, c.id)
    case 1 => Names(q.context.previous, q.station.id, c.id)
    case 2 => TvgAlike(q, c)
    case 3 => CallsignAlike(q, c)
    case 4 => CallsignNames(q, c)
    case 5 => NameNames(q, c)
    case 6 => NameAlike(q, c)
    case 7 => SimilarInScope(q, c)
    case _ => false
  }

  lemma Quotient(common: nat, all: nat, threshold: real)
    requires all > 0
    ensures 2.0 * common as real / all as real >= threshold <==> 2.0 * common as real >= threshold * all as real
  {
    var ratio := 2.0 * common as real / all as real;
    assert ratio * all as real == 2.0 * common as real;
    if ratio >= threshold {
      Scale(threshold, ratio, all as real);
    } else {
      ScaleStrict(ratio, threshold, all as real);
    }
  }

  lemma Scale(a: real, b: real, c: real)
    requires a <= b && c > 0.0
    ensures a * c <= b * c
  {
  }

  lemma ScaleStrict(a: real, b: real, c: real)
    requires a < b && c > 0.0
    ensures a * c < b * c
  {
  }

  lemma ScopeSpeaks(cs: Charset, a: Option<string>, b: Option<string>)
    ensures ScopeMatches(cs, a, b) <==> !Conflict(cs, a, b)
  {
    hide Trim, Normalize;
  }

  lemma SimilarSpeaks(q: Query, c: Station)
    ensures var ours, theirs := WordSet(q.cs, q.station.name), WordSet(q.cs, c.name);
            TokenSimilarity(q.cs, q.station.name, c.name) >= Threshold(q) <==>
              ours != {} && theirs != {} && 2.0 * |ours * theirs| as real >= Threshold(q) * (|ours| + |theirs|) as real
  {
    var ours, theirs := WordSet(q.cs, q.station.name), WordSet(q.cs, c.name);
    assert ours == Tokens(q.cs, q.station.name) && theirs == Tokens(q.cs, c.name);
    hide Words, Normalize, WordSet, Tokens;
    if ours != {} && theirs != {} {
      Quotient(|ours * theirs|, |ours| + |theirs|, Threshold(q));
    }
  }

  lemma FuzzySpeaks(q: Query, c: Station)
    ensures Supports(q, ByFuzzy, c) <==> SimilarInScope(q, c)
  {
    ScopeSpeaks(q.cs, q.station.group, c.group);
    ScopeSpeaks(q.cs, q.station.country, c.country);
    SimilarSpeaks(q, c);
    hide ScopeMatches, Conflict, TokenSimilarity, WordSet;
  }

  /** The stages of the procedure consult exactly this evidence in this order. */
  lemma StageSpeaks(q: Query, stage: Stage, c: Station)
    ensures Supports(q, stage, c) <==> Speaks(q, Rank(stage), c)
  {
    if stage.ByFuzzy? {
      FuzzySpeaks(q, c);
    } else {
      hide TokenSimilarity, SimilarInScope, SameScope, Normalize, EqIgnoreCase, Trim;
    }
  }

  // ------------------------------------------------------------------- laws

  /** No evidence before the place speaks for any candidate. */
  ghost predicate QuietBefore(q: Query, cs: seq<Station>, place: nat) {
    forall p: nat, c :: p < place && c in cs ==> !Speaks(q, p, c)
  }

  /** At the place the evidence speaks for the candidate at `i` and for no other. */
  ghost predicate SpeaksOnlyFor(q: Query, cs: seq<Station>, place: nat, i: nat) {
    i < |cs| && Speaks(q, place, cs[i]) && forall j :: 0 <= j < |cs| && j != i ==> !Speaks(q, place, cs[j])
  }

  lemma PlaceDecides(q: Query, cs: seq<Station>, stage: Stage, c: Station)
    requires QuietBefore(q, cs, Rank(stage)) && c in cs && Speaks(q, Rank(stage), c)
    ensures Decides(q, stage, cs)
  {
    hide Supports, Speaks;
    StageSpeaks(q, stage, c);
    forall earlier | Rank(earlier) < Rank(stage) ensures Silent(q, earlier, cs) {
      forall x | x in cs ensures !Supports(q, earlier, x) {
        StageSpeaks(q, earlier, x);
      }
    }
  }

  lemma {:induction false} OneSupported(q: Query, stage: Stage, cs: seq<Station>, i: nat)
    requires i < |cs| && Supports(q, stage, cs[i]) && forall j :: 0 <= j < |cs| && j != i ==> !Supports(q, stage, cs[j])
    ensures Supported(q, stage, cs) == [cs[i]]
  {
    hide Supports;
    if i == 0 {
      SupportedExactly(q, stage, cs[1..]);
      assert Silent(q, stage, cs[1..]);
    } else {
      OneSupported(q, stage, cs[1..], i - 1);
    }
  }

  lemma OutcomeOf(q: Query, cs: seq<Station>, d: Decision, stage: Stage)
    requires Decided(q, cs, d) && Decides(q, stage, cs)
    ensures Outcome(q, stage, cs, d)
  {
    hide Outcome, Silent;
    var other :| Decides(q, other, cs) && Outcome(q, other, cs, d);
    hide Decides;
    DecidesUnique(q, cs, stage, other);
  }

  lemma SingleDecision(q: Query, cs: seq<Station>, d: Decision, stage: Stage, i: nat)
    requires Decided(q, cs, d) && QuietBefore(q, cs, Rank(stage)) && SpeaksOnlyFor(q, cs, Rank(stage), i)
    requires !stage.ByFuzzy?
    ensures d == Applied(Single(q, stage, cs[i]))
  {
    hide Speaks, Supports, Single, Decided, Decides;
    forall j | 0 <= j < |cs| ensures Supports(q, stage, cs[j]) <==> Speaks(q, Rank(stage), cs[j]) {
      StageSpeaks(q, stage, cs[j]);
    }
    OneSupported(q, stage, cs, i);
    PlaceDecides(q, cs, stage, cs[i]);
    OutcomeOf(q, cs, d, stage);
  }

  lemma NamedDecision(q: Query, cs: seq<Station>, d: Decision, stage: Stage, c: Station)
    requires Decided(q, cs, d) && QuietBefore(q, cs, Rank(stage)) && c in cs && Speaks(q, Rank(stage), c)
    requires Configured(stage)
    ensures d == Applied(Single(q, stage, c))
  {
    hide Decided, Decides, Speaks;
    PlaceDecides(q, cs, stage, c);
    OutcomeOf(q, cs, d, stage);
    SupportedExactly(q, stage, cs);
    StageSpeaks(q, stage, c);
    hide Supported, QuietBefore, Normalize;
  }

  /** A manual binding to a candidate that is present is applied. */
  lemma ManualLaw(q: Query, cs: seq<Station>, d: Decision, c: Station)
    requires Decided(q, cs, d) && c in cs && Names(q.context.manual, q.station.id, c.id)
    ensures d == Applied(Mapping(c.id, Manual, 1.0, StableBinding))
  {
    hide Decided;
    assert QuietBefore(q, cs, 0);
    NamedDecision(q, cs, d, ByManual, c);
  }

  /** Else the previous binding, if its candidate is present. */
  lemma PreviousLaw(q: Query, cs: seq<Station>, d: Decision, c: Station)
    requires Decided(q, cs, d) && QuietBefore(q, cs, 1) && c in cs && Names(q.context.previous, q.station.id, c.id)
    ensures d == Applied(Mapping(c.id, Previous, 1.0, StableBinding))
  {
    hide Decided, QuietBefore;
    NamedDecision(q, cs, d, ByPrevious, c);
  }

  /** Else the only candidate whose tvg-id or id is the station's tvg-id. */
  lemma TvgLaw(q: Query, cs: seq<Station>, d: Decision, i: nat)
    requires Decided(q, cs, d) && QuietBefore(q, cs, 2)
    requires i < |cs| && TvgAlike(q, cs[i]) && forall j :: 0 <= j < |cs| && j != i ==> !TvgAlike(q, cs[j])
    ensures d == Applied(Mapping(cs[i].id, TvgId, 0.99, Exact("tvg-id")))
  {
    hide Decided, QuietBefore, TvgAlike;
    assert SpeaksOnlyFor(q, cs, 2, i);
    SingleDecision(q, cs, d, ByTvgId, i);
  }

  /** Else the only candidate with the station's call sign. */
  lemma CallsignLaw(q: Query, cs: seq<Station>, d: Decision, i: nat)
    requires Decided(q, cs, d) && QuietBefore(q, cs, 3)
    requires i < |cs| && CallsignAlike(q, cs[i]) && forall j :: 0 <= j < |cs| && j != i ==> !CallsignAlike(q, cs[j])
    ensures d == Applied(Mapping(cs[i].id, Callsign, 0.98, Exact("callsign")))
  {
    hide Decided, QuietBefore, CallsignAlike;
    assert SpeaksOnlyFor(q, cs, 3, i);
    SingleDecision(q, cs, d, ByCallsign, i);
  }

  /** Else the candidate that the alias of the call sign names, else that of the name. */
  lemma AliasLaw(q: Query, cs: seq<Station>, d: Decision, c: Station)
    requires Decided(q, cs, d) && c in cs
    requires (QuietBefore(q, cs, 4) && CallsignNames(q, c)) || (QuietBefore(q, cs, 5) && NameNames(q, c))
    ensures d == Applied(Mapping(c.id, Alias, 0.97, ConfiguredAlias))
  {
    hide Decided, QuietBefore, CallsignNames, NameNames;
    if QuietBefore(q, cs, 4) && CallsignNames(q, c) {
      NamedDecision(q, cs, d, ByCallsignAlias, c);
    } else {
      NamedDecision(q, cs, d, ByNameAlias, c);
    }
  }

  /** Else the only candidate with the station's normalised name. */
  lemma NameLaw(q: Query, cs: seq<Station>, d: Decision, i: nat)
    requires Decided(q, cs, d) && QuietBefore(q, cs, 6)
    requires i < |cs| && NameAlike(q, cs[i]) && forall j :: 0 <= j < |cs| && j != i ==> !NameAlike(q, cs[j])
    ensures d == Applied(Mapping(cs[i].id, ExactName, 0.95, Exact("name")))
  {
    hide Decided, QuietBefore, NameAlike;
    assert SpeaksOnlyFor(q, cs, 6, i);
    SingleDecision(q, cs, d, ByName, i);
  }

  // ------------------------------------------------------------- review laws

  /** The candidates for which the evidence at a place speaks, in their order. */
  function Chosen(q: Query, place: nat, cs: seq<Station>): seq<Station> {
    if cs == [] then [] else (if Speaks(q, place, cs[0]) then [cs[0]] else []) + Chosen(q, place, cs[1..])
  }

  lemma {:induction false} ChosenSupported(q: Query, stage: Stage, cs: seq<Station>)
    ensures Chosen(q, Rank(stage), cs) == Supported(q, stage, cs)
  {
    hide Speaks, Supports;
    if cs != [] {
      StageSpeaks(q, stage, cs[0]);
      ChosenSupported(q, stage, cs[1..]);
    }
  }

  /** The candidates as mappings of one kind. */
  function AsMappings(cs: seq<Station>, source: Method, confidence: real, evidence: Evidence): seq<Mapping> {
    seq(|cs|, i requires 0 <= i < |cs| => Mapping(cs[i].id, source, confidence, evidence))
  }

  ghost predicate ById(ms: seq<Mapping>) {
    forall i, j :: 0 <= i < j < |ms| ==> StringLe(ms[i].epgId, ms[j].epgId)
  }

  lemma ReviewDecision(q: Query, cs: seq<Station>, d: Decision, stage: Stage)
    requires Decided(q, cs, d) && QuietBefore(q, cs, Rank(stage)) && !Configured(stage)
    requires |Chosen(q, Rank(stage), cs)| > 1 || (stage.ByFuzzy? && Chosen(q, Rank(stage), cs) != [])
    ensures d.Review? && d.reason == (if stage.ByFuzzy? then NeedsReview else Shared(Label(stage))) && Sorted(d.mappings)
    ensures multiset(d.mappings) == multiset(ListAll(q, stage, Chosen(q, Rank(stage), cs)))
  {
    hide Speaks, Supports, Decided, Decides, ListAll, Sorted;
    ChosenSupported(q, stage, cs);
    SupportedExactly(q, stage, cs);
    var c := Supported(q, stage, cs)[0];
    assert c in Supported(q, stage, cs);
    StageSpeaks(q, stage, c);
    PlaceDecides(q, cs, stage, c);
    OutcomeOf(q, cs, d, stage);
  }

  lemma ExactReview(q: Query, cs: seq<Station>, d: Decision, stage: Stage, source: Method, confidence: real, key: string)
    requires stage.ByTvgId? || stage.ByCallsign? || stage.ByName?
    requires source == MethodOf(stage) && key == Label(stage) && forall c :: Confidence(q, stage, c) == confidence
    requires Decided(q, cs, d) && QuietBefore(q, cs, Rank(stage)) && |Chosen(q, Rank(stage), cs)| > 1
    ensures d.Review? && d.reason == Shared(key) && ById(d.mappings)
    ensures multiset(d.mappings) == multiset(AsMappings(Chosen(q, Rank(stage), cs), source, confidence, Ambiguous(key)))
  {
    hide Decided, QuietBefore, Chosen, Confidence;
    ReviewDecision(q, cs, d, stage);
    var chosen := Chosen(q, Rank(stage), cs);
    assert ListAll(q, stage, chosen) == AsMappings(chosen, source, confidence, Ambiguous(key));
    SameConfidence(d.mappings, AsMappings(chosen, source, confidence, Ambiguous(key)), confidence);
  }

  lemma SameConfidence(ms: seq<Mapping>, others: seq<Mapping>, confidence: real)
    requires Sorted(ms) && multiset(ms) == multiset(others) && forall m :: m in others ==> m.confidence == confidence
    ensures ById(ms)
  {
    Members(ms, others);
    forall i, j | 0 <= i < j < |ms| ensures StringLe(ms[i].epgId, ms[j].epgId) {
      assert ms[i] in ms && ms[j] in ms && Before(ms[i], ms[j]);
    }
  }

  /** Several candidates with the station's tvg-id are all listed for review, by id. */
  lemma TvgReview(q: Query, cs: seq<Station>, d: Decision)
    requires Decided(q, cs, d) && QuietBefore(q, cs, 2) && |Chosen(q, 2, cs)| > 1
    ensures d.Review? && d.reason == Shared("tvg-id") && ById(d.mappings)
    ensures multiset(d.mappings) == multiset(AsMappings(Chosen(q, 2, cs), TvgId, 0.99, Ambiguous("tvg-id")))
  {
    hide Decided, QuietBefore, Chosen, ById, AsMappings;
    ExactReview(q, cs, d, ByTvgId, TvgId, 0.99, "tvg-id");
  }

  /** Likewise for the call sign. */
  lemma CallsignReview(q: Query, cs: seq<Station>, d: Decision)
    requires Decided(q, cs, d) && QuietBefore(q, cs, 3) && |Chosen(q, 3, cs)| > 1
    ensures d.Review? && d.reason == Shared("callsign") && ById(d.mappings)
    ensures multiset(d.mappings) == multiset(AsMappings(Chosen(q, 3, cs), Callsign, 0.98, Ambiguous("callsign")))
  {
    hide Decided, QuietBefore, Chosen, ById, AsMappings;
    ExactReview(q, cs, d, ByCallsign, Callsign, 0.98, "callsign");
  }

  /** Likewise for the name. */
  lemma NameReview(q: Query, cs: seq<Station>, d: Decision)
    requires Decided(q, cs, d) && QuietBefore(q, cs, 6) && |Chosen(q, 6, cs)| > 1
    ensures d.Review? && d.reason == Shared("name") && ById(d.mappings)
    ensures multiset(d.mappings) == multiset(AsMappings(Chosen(q, 6, cs), ExactName, 0.95, Ambiguous("name")))
  {
    hide Decided, QuietBefore, Chosen, ById, AsMappings;
    ExactReview(q, cs, d, ByName, ExactName, 0.95, "name");
  }

  /** The confidence of a similar candidate: twice the common words over all words of both names. */
  ghost predicate WordRatio(q: Query, c: Station, confidence: real) {
    var ours, theirs := WordSet(q.cs, q.station.name), WordSet(q.cs, c.name);
    confidence * (|ours| + |theirs|) as real == 2.0 * |ours * theirs| as real
  }

  ghost predicate SimilarMapping(q: Query, c: Station, m: Mapping) {
    m.epgId == c.id && m.source == Fuzzy && m.evidence == Similarity(m.confidence) && WordRatio(q, c, m.confidence)
  }

  lemma RatioOf(q: Query, c: Station)
    requires SimilarInScope(q, c)
    ensures SimilarMapping(q, c, Listed(q, ByFuzzy, c))
  {
    var ours, theirs := WordSet(q.cs, q.station.name), WordSet(q.cs, c.name);
    assert ours == Tokens(q.cs, q.station.name) && theirs == Tokens(q.cs, c.name);
    hide Words, Normalize, WordSet, Tokens;
    var all := (|ours| + |theirs|) as real;
    assert all > 0.0 && 2.0 * |ours * theirs| as real / all * all == 2.0 * |ours * theirs| as real;
  }

  /** The more similar first, then the smaller id. */
  ghost predicate MostSimilarFirst(ms: seq<Mapping>) {
    forall i, j :: 0 <= i < j < |ms| ==>
      ms[i].confidence > ms[j].confidence || (ms[i].confidence == ms[j].confidence && StringLe(ms[i].epgId, ms[j].epgId))
  }

  /** Each candidate is listed and nothing else is. */
  ghost predicate ListsSimilar(q: Query, chosen: seq<Station>, ms: seq<Mapping>) {
    && MostSimilarFirst(ms) && |ms| == |chosen|
    && (forall c :: c in chosen ==> exists m :: m in ms && SimilarMapping(q, c, m))
    && (forall m :: m in ms ==> exists c :: c in chosen && SimilarMapping(q, c, m))
  }

  lemma {:induction false} ChosenExactly(q: Query, place: nat, cs: seq<Station>)
    ensures forall c :: c in Chosen(q, place, cs) <==> c in cs && Speaks(q, place, c)
  {
    hide Speaks;
    if cs != [] {
      ChosenExactly(q, place, cs[1..]);
      assert cs == [cs[0]] + cs[1..];
    }
  }

  lemma ListedSimilar(q: Query, chosen: seq<Station>, ms: seq<Mapping>)
    requires Sorted(ms) && multiset(ms) == multiset(ListAll(q, ByFuzzy, chosen))
    requires forall c :: c in chosen ==> SimilarInScope(q, c)
    ensures ListsSimilar(q, chosen, ms)
  {
    hide SimilarInScope, SimilarMapping, Listed;
    var listing := ListAll(q, ByFuzzy, chosen);
    Members(ms, listing);
    forall c | c in chosen ensures exists m :: m in ms && SimilarMapping(q, c, m) {
      RatioOf(q, c);
      var i := Place(chosen, c);
      assert listing[i] == Listed(q, ByFuzzy, c) && listing[i] in listing;
    }
    forall m | m in ms ensures exists c :: c in chosen && SimilarMapping(q, c, m) {
      var i := Place(listing, m);
      assert m == Listed(q, ByFuzzy, chosen[i]) && chosen[i] in chosen;
      RatioOf(q, chosen[i]);
    }
  }

  lemma SimilarChosen(q: Query, place: nat, cs: seq<Station>)
    requires place == 7
    ensures forall c :: c in Chosen(q, place, cs) <==> c in cs && SimilarInScope(q, c)
  {
    ChosenExactly(q, place, cs);
    hide Chosen, SimilarInScope;
  }

  /** Without other evidence the candidates with a similar name in scope, and only they, are listed
      for review. */
  lemma FuzzyLaw(q: Query, cs: seq<Station>, d: Decision, chosen: seq<Station>)
    requires Decided(q, cs, d) && QuietBefore(q, cs, 7) && chosen == Chosen(q, 7, cs) != []
    ensures d.Review? && d.reason == NeedsReview && ListsSimilar(q, chosen, d.mappings)
    ensures forall c :: c in chosen <==> c in cs && SimilarInScope(q, c)
  {
    hide Decided, QuietBefore, Chosen, ListsSimilar, SimilarInScope, Speaks;
    SimilarChosen(q, 7, cs);
    ReviewDecision(q, cs, d, ByFuzzy);
    ListedSimilar(q, chosen, d.mappings);
  }

  /** Nothing is resolved exactly if no evidence speaks for any candidate, and the reason says
      whether there was one. */
  lemma UnresolvedLaw(q: Query, cs: seq<Station>, d: Decision)
    requires Decided(q, cs, d)
    ensures d.Unresolved? <==> QuietBefore(q, cs, 8)
    ensures d.Unresolved? ==> d.reason == if cs == [] then NoCandidates else NotCorroborated
  {
    hide Supports, Speaks, Supported;
    if QuietBefore(q, cs, 8) {
      forall stage, c | c in cs ensures !Supports(q, stage, c) {
        StageSpeaks(q, stage, c);
      }
      assert forall stage :: Silent(q, stage, cs);
    } else {
      var place: nat, c :| place < 8 && c in cs && Speaks(q, place, c);
      var stage := StageAt(place);
      StageSpeaks(q, stage, c);
      assert !Silent(q, stage, cs);
    }
  }

  function StageAt(place: nat): (stage: Stage)
    requires place < 8
    ensures Rank(stage) == place
  {
    [ByManual, ByPrevious, ByTvgId, ByCallsign, ByCallsignAlias, ByNameAlias, ByName, ByFuzzy][place]
  }
}
