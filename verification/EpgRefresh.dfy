/** The matching procedure, and what repeated refreshes do to a station's binding. */
module EpgRefresh {
  import opened Common
  import opened Text
  import opened Reconcile

  // ---------------------------------------------------------------- sorting

  function Insert<T>(le: (T, T) -> bool, x: T, s: seq<T>): seq<T> {
    if s == [] || le(x, s[0]) then [x] + s else [s[0]] + Insert(le, x, s[1..])
  }

  function Sort<T>(le: (T, T) -> bool, s: seq<T>): seq<T> {
    if s == [] then [] else Insert(le, s[0], Sort(le, s[1..]))
  }

  ghost predicate Order<T(!new)>(le: (T, T) -> bool) {
    && (forall a, b :: le(a, b) || le(b, a))
    && (forall a, b, c :: le(a, b) && le(b, c) ==> le(a, c))
  }

  ghost predicate Ordered<T>(le: (T, T) -> bool, s: seq<T>) {
    forall i, j :: 0 <= i < j < |s| ==> le(s[i], s[j])
  }

  lemma {:induction false} InsertOrders<T(!new)>(le: (T, T) -> bool, x: T, s: seq<T>)
    requires Order(le) && Ordered(le, s)
    ensures Ordered(le, Insert(le, x, s)) && multiset(Insert(le, x, s)) == multiset{x} + multiset(s)
  {
    if s != [] && !le(x, s[0]) {
      InsertOrders(le, x, s[1..]);
      InsertMembers(le, x, s[1..]);
      assert s == [s[0]] + s[1..];
      OrderedCons(le, s[0], Insert(le, x, s[1..]));
    } else if s != [] {
      OrderedCons(le, x, s);
    }
  }

  lemma {:induction false} InsertMembers<T(!new)>(le: (T, T) -> bool, x: T, s: seq<T>)
    ensures forall y :: y in Insert(le, x, s) ==> y == x || y in s
  {
    if s != [] && !le(x, s[0]) {
      InsertMembers(le, x, s[1..]);
    }
  }

  lemma OrderedCons<T(!new)>(le: (T, T) -> bool, x: T, s: seq<T>)
    requires Ordered(le, s) && forall y :: y in s ==> le(x, y)
    ensures Ordered(le, [x] + s)
  {
  }

  lemma {:induction false} SortOrders<T(!new)>(le: (T, T) -> bool, s: seq<T>)
    requires Order(le)
    ensures Ordered(le, Sort(le, s)) && multiset(Sort(le, s)) == multiset(s)
  {
    if s != [] {
      SortOrders(le, s[1..]);
      InsertOrders(le, s[0], Sort(le, s[1..]));
      assert s == [s[0]] + s[1..];
    }
  }

  predicate IdLe(a: Station, b: Station) {
    StringLe(a.id, b.id)
  }

  lemma IdLeOrder()
    ensures Order(IdLe)
  {
    forall a, b ensures IdLe(a, b) || IdLe(b, a) {
      StringTotal(a.id, b.id);
    }
    forall a, b, c | IdLe(a, b) && IdLe(b, c) ensures IdLe(a, c) {
      StringTransitive(a.id, b.id, c.id);
    }
  }

  lemma BeforeOrder()
    ensures Order(Before)
  {
    forall a, b ensures Before(a, b) || Before(b, a) {
      StringTotal(a.epgId, b.epgId);
    }
    forall a, b, c | Before(a, b) && Before(b, c) ensures Before(a, c) {
      if a.confidence == c.confidence {
        StringTransitive(a.epgId, b.epgId, c.epgId);
      }
    }
  }

  // -------------------------------------------------------------- procedure

  /** The candidates a stage supports. */
  method Collect(q: Query, stage: Stage, candidates: seq<Station>) returns (found: seq<Station>)
    ensures found == Supported(q, stage, candidates)
  {
    found := [];
    for i := 0 to |candidates|
      invariant found == Supported(q, stage, candidates[..i])
    {
      assert candidates[..i + 1] == candidates[..i] + [candidates[i]];
      SupportedConcat(q, stage, candidates[..i], [candidates[i]]);
      if Supports(q, stage, candidates[i]) {
        found := found + [candidates[i]];
      }
    }
    assert candidates[..|candidates|] == candidates;
  }

  /** A single exact match is applied, several are listed by id for review. */
  method UniqueOrReview(q: Query, stage: Stage, candidates: seq<Station>) returns (d: Option<Decision>)
    requires stage.ByTvgId? || stage.ByCallsign? || stage.ByName?
    ensures d.None? <==> Silent(q, stage, candidates)
    ensures d.Some? ==> Outcome(q, stage, candidates, d.value)
  {
    var found := Collect(q, stage, candidates);
    SupportedExactly(q, stage, candidates);
    hide Supports, Silent;
    if found == [] {
      return None;
    }
    if |found| == 1 {
      return Some(Applied(Single(q, stage, found[0])));
    }
    var sorted := Sort(IdLe, found);
    ReviewListing(q, stage, found);
    hide Sort, ListAll, Sorted;
    return Some(Review(ListAll(q, stage, sorted), Shared(Label(stage))));
  }

  lemma ReviewListing(q: Query, stage: Stage, found: seq<Station>)
    requires !stage.ByFuzzy?
    ensures var mappings := ListAll(q, stage, Sort(IdLe, found));
            Sorted(mappings) && multiset(mappings) == multiset(ListAll(q, stage, found))
  {
    hide ListAll, Sorted;
    IdLeOrder();
    SortOrders(IdLe, found);
    SortedListing(q, stage, Sort(IdLe, found));
    ListPermutes(q, stage, Sort(IdLe, found), found);
  }

  lemma SortedListing(q: Query, stage: Stage, s: seq<Station>)
    requires !stage.ByFuzzy? && Ordered(IdLe, s)
    ensures Sorted(ListAll(q, stage, s))
  {
    forall i, j | 0 <= i < j < |s| ensures Before(ListAll(q, stage, s)[i], ListAll(q, stage, s)[j]) {
      assert IdLe(s[i], s[j]);
    }
  }

  lemma {:induction false} ListPermutes(q: Query, stage: Stage, a: seq<Station>, b: seq<Station>)
    requires multiset(a) == multiset(b)
    ensures multiset(ListAll(q, stage, a)) == multiset(ListAll(q, stage, b))
    decreases |a|
  {
    hide Listed;
    Members(a, b);
    if a != [] {
      var i := TakeOut(a, b);
      var l, r := b[..i], b[i + 1..];
      ListPermutes(q, stage, a[1..], l + r);
      ListConcat(q, stage, [a[0]], a[1..]);
      ListConcat(q, stage, [a[0]], r);
      ListConcat(q, stage, l, [a[0]] + r);
      ListConcat(q, stage, l, r);
      hide ListAll;
      assert a == [a[0]] + a[1..] && b == l + ([a[0]] + r);
    } else {
      assert b == [];
    }
  }

  /** A configured id is applied if a candidate has it. */
  method ApplyConfigured(q: Query, stage: Stage, candidates: seq<Station>) returns (d: Option<Decision>)
    requires Configured(stage)
    ensures d.None? <==> Silent(q, stage, candidates)
    ensures d.Some? ==> Outcome(q, stage, candidates, d.value)
  {
    SupportedExactly(q, stage, candidates);
    hide Supported;
    var target := Target(q, stage);
    if target.None? {
      return None;
    }
    for i := 0 to |candidates|
      invariant forall c :: c in candidates[..i] ==> c.id != target.value
    {
      if candidates[i].id == target.value {
        assert candidates[i] in Supported(q, stage, candidates);
        return Some(Applied(Single(q, stage, candidates[i])));
      }
      assert candidates[..i + 1] == candidates[..i] + [candidates[i]];
    }
    assert candidates[..|candidates|] == candidates;
    return None;
  }

  /** Similar names in the same scope are listed for review, never applied. */
  method FuzzyReview(q: Query, candidates: seq<Station>) returns (d: Option<Decision>)
    ensures d.None? <==> Silent(q, ByFuzzy, candidates)
    ensures d.Some? ==> Outcome(q, ByFuzzy, candidates, d.value)
  {
    var found := Collect(q, ByFuzzy, candidates);
    SupportedExactly(q, ByFuzzy, candidates);
    hide Supports, Silent;
    if found == [] {
      return None;
    }
    var listing := ListAll(q, ByFuzzy, found);
    BeforeOrder();
    SortOrders(Before, listing);
    return Some(Review(Sort(Before, listing), NeedsReview));
  }

  ghost predicate SilentBelow(q: Query, rank: nat, candidates: seq<Station>) {
    forall stage :: Rank(stage) < rank ==> Silent(q, stage, candidates)
  }

  lemma SilentNext(q: Query, stage: Stage, candidates: seq<Station>)
    requires SilentBelow(q, Rank(stage), candidates)
    ensures Silent(q, stage, candidates) <==> SilentBelow(q, Rank(stage) + 1, candidates)
    ensures !Silent(q, stage, candidates) ==> Decides(q, stage, candidates)
  {
    hide Silent;
    forall other ensures Rank(other) == Rank(stage) <==> other == stage {
      RankUnique(other, stage);
    }
  }

  lemma StageDecides(q: Query, stage: Stage, candidates: seq<Station>, d: Decision)
    requires Decides(q, stage, candidates) && Outcome(q, stage, candidates, d)
    ensures Decided(q, candidates, d)
  {
    hide Silent, Outcome;
  }

  lemma NoneDecides(q: Query, candidates: seq<Station>)
    requires SilentBelow(q, 8, candidates) || candidates == []
    ensures Decided(q, candidates, Unresolved(if candidates == [] then NoCandidates else NotCorroborated))
  {
    hide Supports;
  }

  /** One stage of the procedure. */
  method Consult(q: Query, stage: Stage, candidates: seq<Station>) returns (d: Option<Decision>)
    requires SilentBelow(q, Rank(stage), candidates)
    ensures d.None? ==> SilentBelow(q, Rank(stage) + 1, candidates)
    ensures d.Some? ==> Decided(q, candidates, d.value)
  {
    hide Outcome, Silent, Decided, SilentBelow, Decides;
    if Configured(stage) {
      d := ApplyConfigured(q, stage, candidates);
    } else if stage.ByFuzzy? {
      d := FuzzyReview(q, candidates);
    } else {
      d := UniqueOrReview(q, stage, candidates);
    }
    SilentNext(q, stage, candidates);
    if d.Some? {
      StageDecides(q, stage, candidates, d.value);
    }
  }

  /** The decision for one station. */
  method ReconcileEpg(q: Query, candidates: seq<Station>) returns (d: Decision)
    ensures Decided(q, candidates, d)
  {
    if candidates == [] {
      NoneDecides(q, candidates);
      return Unresolved(NoCandidates);
    }
    var stages := [ByManual, ByPrevious, ByTvgId, ByCallsign, ByCallsignAlias, ByNameAlias, ByName, ByFuzzy];
    assert SilentBelow(q, 0, candidates);
    hide Decided, SilentBelow;
    for i := 0 to |stages|
      invariant SilentBelow(q, i, candidates)
    {
      assert Rank(stages[i]) == i;
      var found := Consult(q, stages[i], candidates);
      if found.Some? {
        return found.value;
      }
    }
    NoneDecides(q, candidates);
    return Unresolved(NotCorroborated);
  }

  // -------------------------------------------------------- what is applied

  /** A mapping is applied exactly when the first stage with a match is not the fuzzy one and
      either names its id or has a single match; it then names that candidate. */
  lemma AppliedExactly(q: Query, candidates: seq<Station>, d: Decision)
    requires Decided(q, candidates, d)
    ensures d.Applied? <==>
              exists stage :: Decides(q, stage, candidates) && !stage.ByFuzzy?
                              && (Configured(stage) || |Supported(q, stage, candidates)| == 1)
    ensures d.Applied? ==> !d.mapping.source.Fuzzy? && exists c :: c in candidates && c.id == d.mapping.epgId
  {
    hide Silent, Supports;
    if exists stage :: Decides(q, stage, candidates) {
      var stage :| Decides(q, stage, candidates) && Outcome(q, stage, candidates, d);
      SupportedExactly(q, stage, candidates);
      forall other | Decides(q, other, candidates) ensures other == stage {
        DecidesUnique(q, candidates, stage, other);
      }
    }
  }

  /** Several matches in the deciding exact stage are all listed for review. */
  lemma AmbiguityIsReviewed(q: Query, candidates: seq<Station>, d: Decision, stage: Stage)
    requires Decided(q, candidates, d) && Decides(q, stage, candidates) && !Configured(stage)
    requires stage.ByFuzzy? || |Supported(q, stage, candidates)| > 1
    ensures d.Review? && |d.mappings| == |Supported(q, stage, candidates)|
    ensures forall c :: c in candidates && Supports(q, stage, c) ==> exists m :: m in d.mappings && m.epgId == c.id
  {
    hide Silent, Supports;
    var other :| Decides(q, other, candidates) && Outcome(q, other, candidates, d);
    DecidesUnique(q, candidates, stage, other);
    SupportedExactly(q, stage, candidates);
    var matches := Supported(q, stage, candidates);
    Members(d.mappings, ListAll(q, stage, matches));
    forall c | c in candidates && Supports(q, stage, c) ensures exists m :: m in d.mappings && m.epgId == c.id {
      var i :| 0 <= i < |matches| && matches[i] == c;
      assert ListAll(q, stage, matches)[i] == Listed(q, stage, c);
    }
  }

  // -------------------------------------------------------------- refreshes

  function ApplyNonDestructive(current: Option<string>, d: Decision): Option<string> {
    match d
    case Applied(m) => Some(m.epgId)
    case _ => current
  }

  predicate Offers(candidates: seq<Station>, id: string) {
    exists c :: c in candidates && c.id == id
  }

  /** A manual binding of the station to a candidate that is present. */
  predicate Overridden(q: Query, candidates: seq<Station>) {
    Target(q, ByManual).Some? && Offers(candidates, Target(q, ByManual).value)
  }

  /** One refresh: what was asked, what the guide offered and what was decided. */
  datatype Refresh = Refresh(query: Query, candidates: seq<Station>, decision: Decision)

  /** A run of refreshes, each starting from the binding the last one left. */
  ghost predicate Run(bindings: seq<Option<string>>, refreshes: seq<Refresh>) {
    && |bindings| == |refreshes| + 1
    && forall i :: 0 <= i < |refreshes| ==>
         && Target(refreshes[i].query, ByPrevious) == bindings[i]
         && Decided(refreshes[i].query, refreshes[i].candidates, refreshes[i].decision)
         && bindings[i + 1] == ApplyNonDestructive(bindings[i], refreshes[i].decision)
  }

  lemma FirstStages(q: Query, candidates: seq<Station>)
    ensures Decides(q, ByManual, candidates) <==> Overridden(q, candidates)
    ensures Decides(q, ByPrevious, candidates) <==>
              !Overridden(q, candidates) && Target(q, ByPrevious).Some? && Offers(candidates, Target(q, ByPrevious).value)
  {
    forall stage ensures Rank(stage) < 1 <==> stage == ByManual {
      RankUnique(stage, ByManual);
    }
    assert Silent(q, ByManual, candidates) <==> !Overridden(q, candidates);
    assert Silent(q, ByPrevious, candidates) <==>
           !(Target(q, ByPrevious).Some? && Offers(candidates, Target(q, ByPrevious).value));
  }

  lemma ConfiguredDecision(q: Query, candidates: seq<Station>, d: Decision, stage: Stage)
    requires Decided(q, candidates, d) && Decides(q, stage, candidates) && Configured(stage)
    ensures d.Applied? && Target(q, stage) == Some(d.mapping.epgId)
  {
    var other :| Decides(q, other, candidates) && Outcome(q, other, candidates, d);
    DecidesUnique(q, candidates, stage, other);
    SupportedExactly(q, stage, candidates);
  }

  /** The binding a single refresh leaves: the manual one if it is offered, else the current one
      if it is offered, else what the remaining evidence applies, else the current one. */
  lemma RefreshStep(q: Query, candidates: seq<Station>, d: Decision)
    requires Decided(q, candidates, d)
    ensures var current := Target(q, ByPrevious);
            ApplyNonDestructive(current, d) ==
              if Overridden(q, candidates) then Target(q, ByManual)
              else if current.Some? && Offers(candidates, current.value) then current
              else if d.Applied? then Some(d.mapping.epgId) else current
  {
    hide Decided, Decides;
    FirstStages(q, candidates);
    if Overridden(q, candidates) {
      ConfiguredDecision(q, candidates, d, ByManual);
    } else if Decides(q, ByPrevious, candidates) {
      ConfiguredDecision(q, candidates, d, ByPrevious);
    }
  }

  /** A binding is never cleared. */
  lemma {:induction false} BindingNeverCleared(bindings: seq<Option<string>>, refreshes: seq<Refresh>, i: nat, k: nat)
    requires Run(bindings, refreshes) && i <= k <= |refreshes| && bindings[i].Some?
    ensures bindings[k].Some?
    decreases k - i
  {
    if i < k {
      BindingNeverCleared(bindings, refreshes, i, k - 1);
    }
  }

  /** Nothing displaces the binding `id` in a refresh: the guide offers it or nothing is
      applied, and no manual binding to another candidate that is present overrides it. */
  predicate Keeps(r: Refresh, id: string) {
    && (Offers(r.candidates, id) || !r.decision.Applied?)
    && (Overridden(r.query, r.candidates) ==> Target(r.query, ByManual) == Some(id))
  }

  /** A binding survives every run of refreshes that keeps it. */
  lemma {:induction false} BindingIsStable(bindings: seq<Option<string>>, refreshes: seq<Refresh>, i: nat, k: nat, id: string)
    requires Run(bindings, refreshes) && i <= k <= |refreshes| && bindings[i] == Some(id)
    requires forall n :: i <= n < k ==> Keeps(refreshes[n], id)
    ensures bindings[k] == Some(id)
    decreases k - i
  {
    hide Decided, Overridden, Offers, Target;
    if i < k {
      BindingIsStable(bindings, refreshes, i, k - 1, id);
      var r := refreshes[k - 1];
      RefreshStep(r.query, r.candidates, r.decision);
      assert Keeps(r, id);
    }
  }

  /** Each loss of a binding is a manual override or a guide that no longer offers it. */
  lemma LossHasCause(bindings: seq<Option<string>>, refreshes: seq<Refresh>, n: nat, id: string)
    requires Run(bindings, refreshes) && n < |refreshes| && bindings[n] == Some(id) && bindings[n + 1] != Some(id)
    ensures Overridden(refreshes[n].query, refreshes[n].candidates) || !Offers(refreshes[n].candidates, id)
    ensures refreshes[n].decision.Applied? && Offers(refreshes[n].candidates, refreshes[n].decision.mapping.epgId)
  {
    var r := refreshes[n];
    RefreshStep(r.query, r.candidates, r.decision);
    AppliedExactly(r.query, r.candidates, r.decision);
  }
}
