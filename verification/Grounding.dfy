/**
 What a checked answer says of its bullets (`src/research/agent_loop/verify.rs`), in terms of
 places in the pages and of the facts found there.
 */
module Grounding {
  import opened Prelude
  import opened Verify

  // ----- Finding -----

  /** `part` stands in `text` at place `i`. */
  predicate StandsAt(text: string, part: string, i: int) {
    0 <= i <= |text| - |part| && text[i..i + |part|] == part
  }

  /** A text contains another exactly when it stands there at some place. */
  lemma {:induction false} ContainsMeans(text: string, part: string)
    ensures Contains(text, part) <==> exists i :: StandsAt(text, part, i)
  {
    StandsFirst(text, part);
    if text == "" {
      assert Contains(text, part) <==> part <= text;
      hide StandsAt;
      forall i | StandsAt(text, part, i)
        ensures i == 0
      {
        PlaceIsInside(text, part, i);
      }
    } else {
      ContainsMeans(text[1..], part);
      assert Contains(text, part) <==> part <= text || Contains(text[1..], part);
      hide StandsAt, Contains;
      if i :| StandsAt(text[1..], part, i) {
        StandsLater(text, part, i);
      }
      if i :| StandsAt(text, part, i) {
        PlaceIsInside(text, part, i);
        if i > 0 {
          StandsLater(text, part, i - 1);
        }
      }
    }
  }

  lemma {:induction false} PlaceIsInside(text: string, part: string, i: int)
    ensures StandsAt(text, part, i) ==> 0 <= i <= |text|
  {
  }

  lemma {:induction false} StandsFirst(text: string, part: string)
    ensures StandsAt(text, part, 0) <==> part <= text
  {
  }

  lemma {:induction false} StandsLater(text: string, part: string, i: int)
    requires text != "" && i >= 0
    ensures StandsAt(text, part, i + 1) <==> StandsAt(text[1..], part, i)
  {
    if 0 <= i <= |text[1..]| - |part| {
      assert text[1..][i..i + |part|] == text[i + 1..i + 1 + |part|];
    }
  }

  /** The bullet's quote, normalized, is some text that stands somewhere in the normalized page. */
  ghost predicate QuoteStands(reader: Reader, markdown: string, quote: Option<string>) {
    quote.Some? && reader.normalize(quote.value) != ""
    && exists i :: StandsAt(reader.normalize(markdown), reader.normalize(quote.value), i)
  }

  /** A number is on the page by its digit groups, a code as a whole, a name anywhere, whole or by its last segment. */
  ghost predicate FactStands(reader: Reader, markdown: string, token: Token) {
    match token
    case Number(groups) => exists w :: w in reader.numbers(markdown) && NumbersMatch(groups, DigitGroups(w))
    case Code(code) => code in reader.codes(reader.plain(markdown))
    case Identifier(ident) =>
      || (exists i :: StandsAt(reader.plain(markdown), ident, i))
      || (reader.lastSegment(ident).Some?
          && exists i :: StandsAt(reader.plain(markdown), reader.lastSegment(ident).value, i))
  }

  lemma {:induction false} HasMeans(reader: Reader, markdown: string, token: Token)
    ensures Has(reader, markdown, token) <==> FactStands(reader, markdown, token)
  {
    hide Contains, StandsAt, NumbersMatch, DigitGroups;
    match token {
      case Number(groups) =>
        var found := reader.numbers(markdown);
        if w :| w in found && NumbersMatch(groups, DigitGroups(w)) {
          var i :| 0 <= i < |found| && found[i] == w;
        }
      case Code(_) =>
      case Identifier(ident) =>
        ContainsMeans(reader.plain(markdown), ident);
        if reader.lastSegment(ident).Some? {
          ContainsMeans(reader.plain(markdown), reader.lastSegment(ident).value);
        }
    }
  }

  ghost predicate FactsStand(reader: Reader, markdown: string, text: string) {
    forall token :: token in reader.tokens(text) ==> FactStands(reader, markdown, token)
  }

  lemma {:induction false} HasAllMeans(reader: Reader, markdown: string, text: string)
    ensures HasAll(reader, markdown, reader.tokens(text)) <==> FactsStand(reader, markdown, text)
  {
    hide Has, FactStands;
    var tokens := reader.tokens(text);
    forall token | token in tokens
      ensures Has(reader, markdown, token) <==> FactStands(reader, markdown, token)
    {
      HasMeans(reader, markdown, token);
    }
    if FactsStand(reader, markdown, text) {
      forall i | 0 <= i < |tokens|
        ensures Has(reader, markdown, tokens[i])
      {
        assert tokens[i] in tokens;
      }
    }
  }

  /** A page supports a bullet exactly when it has the quote and every checkable fact, partly when it has the quote. */
  lemma {:induction false} GradeMeans(reader: Reader, markdown: string, text: string, quote: Option<string>)
    ensures var support := Grade(reader, markdown, text, quote);
            && (support == Exact <==> QuoteStands(reader, markdown, quote) && FactsStand(reader, markdown, text))
            && (support == Partly <==> QuoteStands(reader, markdown, quote) && !FactsStand(reader, markdown, text))
            && (support == Missing <==> !QuoteStands(reader, markdown, quote))
  {
    hide Contains, HasAll, StandsAt, FactsStand;
    HasAllMeans(reader, markdown, text);
    if quote.Some? {
      ContainsMeans(reader.normalize(markdown), reader.normalize(quote.value));
    }
  }

  // ----- The whole answer -----

  /** Page `e` of the evidence is the first under the key of link `i` of a bullet. */
  predicate LinksPage(reader: Reader, evidence: seq<Page>, point: Point, i: int, e: int) {
    && 0 <= i < |point.links| && 0 <= e < |evidence|
    && reader.dedupKey(evidence[e].sourceUrl) == reader.dedupKey(point.links[i])
    && forall d :: 0 <= d < e ==> reader.dedupKey(evidence[d].sourceUrl) != reader.dedupKey(point.links[i])
  }

  ghost predicate QuotedIn(reader: Reader, evidence: seq<Page>, point: Point, i: int, e: int) {
    LinksPage(reader, evidence, point, i, e) && QuoteStands(reader, evidence[e].markdown, point.quote)
  }

  ghost predicate BackedBy(reader: Reader, evidence: seq<Page>, point: Point, i: int, e: int) {
    QuotedIn(reader, evidence, point, i, e) && FactsStand(reader, evidence[e].markdown, point.text)
  }

  /** What support a bullet has: the best that any page it links gives it. */
  ghost predicate SupportTells(reader: Reader, evidence: seq<Page>, point: Point, support: Support) {
    && (support == Exact <==> exists i, e :: BackedBy(reader, evidence, point, i, e))
    && (support == Partly <==>
          (exists i, e :: QuotedIn(reader, evidence, point, i, e))
          && forall i, e :: !BackedBy(reader, evidence, point, i, e))
    && (support == Missing <==>
          (exists i, e :: LinksPage(reader, evidence, point, i, e))
          && forall i, e :: !QuotedIn(reader, evidence, point, i, e))
    && (support == Unchecked <==> forall i, e :: !LinksPage(reader, evidence, point, i, e))
  }

  lemma {:induction false} LinkedPage(reader: Reader, evidence: seq<Page>, point: Point, i: nat) returns (e: int)
    requires i < |point.links|
    ensures var claim := ClaimAt(reader, PagesOf(reader, evidence), point, i);
            && (claim.None? ==> forall d :: !LinksPage(reader, evidence, point, i, d))
            && (claim.Some? ==>
                  && LinksPage(reader, evidence, point, i, e)
                  && (forall d :: LinksPage(reader, evidence, point, i, d) ==> d == e)
                  && (claim.value.support == Exact <==> BackedBy(reader, evidence, point, i, e))
                  && (claim.value.support == Missing <==> !QuotedIn(reader, evidence, point, i, e))
                  && claim.value.support != Unchecked)
  {
    hide Grade, PagesOf, QuoteStands, FactsStand;
    var key := reader.dedupKey(point.links[i]);
    FirstPageStays(reader, evidence, key);
    e := -1;
    if key in PagesOf(reader, evidence) {
      e :| 0 <= e < |evidence| && reader.dedupKey(evidence[e].sourceUrl) == key
           && PagesOf(reader, evidence)[key] == evidence[e].markdown
           && forall j :: 0 <= j < e ==> reader.dedupKey(evidence[j].sourceUrl) != key;
      GradeMeans(reader, evidence[e].markdown, point.text, point.quote);
    }
  }

  /** The support of every bullet of a checked answer, told by the pages alone. */
  lemma {:induction false} BulletTells(reader: Reader, evidence: seq<Page>, point: Point)
    requires point.support == Unchecked
    ensures SupportTells(reader, evidence, point, Graded(reader, PagesOf(reader, evidence), point).support)
  {
    hide PagesOf, Graded, ClaimAt, LinksPage, QuoteStands, FactsStand;
    var pages := PagesOf(reader, evidence);
    var support := Graded(reader, pages, point).support;
    if point.links == [] {
      NoLinks(reader, pages, point);
      forall i, e
        ensures !LinksPage(reader, evidence, point, i, e)
      {
        LinkIsThere(reader, evidence, point, i, e);
      }
    } else {
      forall i, e | LinksPage(reader, evidence, point, i, e)
        ensures 0 <= i < |point.links| && ClaimAt(reader, pages, point, i).Some?
        ensures ClaimAt(reader, pages, point, i).value.support.Rank() <= support.Rank()
        ensures ClaimAt(reader, pages, point, i).value.support == Exact <==> BackedBy(reader, evidence, point, i, e)
        ensures ClaimAt(reader, pages, point, i).value.support == Missing <==> !QuotedIn(reader, evidence, point, i, e)
        ensures ClaimAt(reader, pages, point, i).value.support != Unchecked
      {
        LinkIsThere(reader, evidence, point, i, e);
        var d := LinkedPage(reader, evidence, point, i);
        BulletSupportIsMax(reader, pages, point, i);
      }
      BulletSupportIsMax(reader, pages, point, 0);
      if support != Unchecked {
        var j :| 0 <= j < |point.links| && ClaimAt(reader, pages, point, j).Some?
                 && ClaimAt(reader, pages, point, j).value.support == support;
        var e := LinkedPage(reader, evidence, point, j);
        assert LinksPage(reader, evidence, point, j, e);
      }
    }
  }

  lemma {:induction false} LinkIsThere(reader: Reader, evidence: seq<Page>, point: Point, i: int, e: int)
    ensures LinksPage(reader, evidence, point, i, e) ==> 0 <= i < |point.links|
  {
  }

  lemma {:induction false} NoLinks(reader: Reader, pages: map<string, string>, point: Point)
    requires point.links == []
    ensures Graded(reader, pages, point).support == point.support
  {
  }

  // ----- Every bullet, and the counters -----

  lemma {:induction false} GradedAppend(reader: Reader, pages: map<string, string>, a: seq<Point>, b: seq<Point>)
    ensures GradedAll(reader, pages, a + b) == GradedAll(reader, pages, a) + GradedAll(reader, pages, b)
  {
    hide Graded;
    if b == [] {
      assert a + b == a && GradedAll(reader, pages, a) + [] == GradedAll(reader, pages, a);
    } else {
      var n, last := |b| - 1, b[|b| - 1];
      GradedAppend(reader, pages, a, b[..n]);
      assert (a + b)[..|a + b| - 1] == a + b[..n];
      assert GradedAll(reader, pages, a + b) == GradedAll(reader, pages, a + b[..n]) + [Graded(reader, pages, last)];
      assert GradedAll(reader, pages, b) == GradedAll(reader, pages, b[..n]) + [Graded(reader, pages, last)];
      hide GradedAll;
      ConcatAssociates(
        GradedAll(reader, pages, a), GradedAll(reader, pages, b[..n]), [Graded(reader, pages, last)]);
    }
  }

  /** The bullets of the checked answer are those of the answer, each graded. */
  lemma {:induction false} BulletsAreGraded(
    reader: Reader, pages: map<string, string>, claims: seq<Claim>, themes: seq<ThemeSection>)
    ensures AllPoints(AppliedThemes(claims, GradedThemes(reader, pages, themes)))
         == GradedAll(reader, pages, AllPoints(themes))
  {
    if themes == [] {
      assert AppliedThemes(claims, []) == [] && AllPoints([]) == [];
    } else {
      hide GradedAll, AppliedAll;
      var n, last := |themes| - 1, themes[|themes| - 1];
      BulletsAreGraded(reader, pages, claims, themes[..n]);
      assert AllPoints(themes) == AllPoints(themes[..n]) + last.points;
      GradedAppend(reader, pages, AllPoints(themes[..n]), last.points);
      var graded := GradedThemes(reader, pages, themes[..n]);
      var theme := last.(points := GradedAll(reader, pages, last.points));
      assert GradedThemes(reader, pages, themes) == graded + [theme];
      hide GradedThemes;
      AppliedSnoc(claims, graded + [theme], |graded|);
      assert (graded + [theme])[..|graded|] == graded && (graded + [theme])[..|graded| + 1] == graded + [theme];
      hide AppliedThemes;
      AllPointsSnoc(AppliedThemes(claims, graded), theme.(citations := AppliedAll(claims, theme.citations)));
    }
  }

  /** The places of the bullets that have a support. */
  function PlacesOf(points: seq<Point>, support: Support): set<nat> {
    set p: nat | p < |points| && points[p].support == support
  }

  lemma {:induction false} PlacesSnoc(points: seq<Point>, last: Point, support: Support)
    ensures PlacesOf(points + [last], support)
         == PlacesOf(points, support) + if last.support == support then {|points|} else {}
  {
  }

  lemma {:induction false} HavingCounts(points: seq<Point>, support: Support)
    ensures Having(points, support) == |PlacesOf(points, support)|
  {
    if points == [] {
      assert PlacesOf(points, support) == {};
    } else {
      var n := |points| - 1;
      HavingCounts(points[..n], support);
      assert points == points[..n] + [points[n]];
      PlacesSnoc(points[..n], points[n], support);
      assert n !in PlacesOf(points[..n], support);
      hide PlacesOf;
    }
  }

  /**
   A checked answer has the bullets of the answer, each with the support its pages give it, and
   its counters count those bullets.
   */
  lemma {:induction false} AnswerTells(reader: Reader, synthesis: Synthesis, evidence: seq<Page>)
    requires forall p :: 0 <= p < |AllPoints(synthesis.themes)| ==> AllPoints(synthesis.themes)[p].support == Unchecked
    ensures var before, verified := AllPoints(synthesis.themes), Verified(reader, synthesis, evidence);
            var after, counters := AllPoints(verified.themes), verified.verification;
            && |after| == |before| == counters.bullets
            && (forall p :: 0 <= p < |after| ==>
                  && after[p] == before[p].(support := after[p].support)
                  && SupportTells(reader, evidence, before[p], after[p].support))
            && counters.exact == |PlacesOf(after, Exact)|
            && counters.partial == |PlacesOf(after, Partly)|
            && counters.none == |PlacesOf(after, Missing)|
            && counters.cited == |after| - |PlacesOf(after, Unchecked)|
  {
    hide PagesOf, Claims, AllPoints, GradedAll, GradedThemes, AppliedThemes, AppliedAll, Having, Graded;
    hide SupportTells, PlacesOf;
    var pages, points := PagesOf(reader, evidence), AllPoints(synthesis.themes);
    BulletsAreGraded(reader, pages, Claims(reader, pages, points), synthesis.themes);
    GradedKeepsCount(reader, pages, points);
    CountersAddUp(reader, synthesis, evidence);
    var after := GradedAll(reader, pages, points);
    HavingCounts(after, Exact);
    HavingCounts(after, Partly);
    HavingCounts(after, Missing);
    HavingCounts(after, Unchecked);
    forall p | 0 <= p < |after|
      ensures after[p] == points[p].(support := after[p].support)
      ensures SupportTells(reader, evidence, points[p], after[p].support)
    {
      BulletTells(reader, evidence, points[p]);
      OnlyTheSupport(reader, pages, points[p]);
    }
  }

  lemma {:induction false} OnlyTheSupport(reader: Reader, pages: map<string, string>, point: Point)
    ensures Graded(reader, pages, point) == point.(support := Graded(reader, pages, point).support)
  {
    hide PointClaims, Strongest;
  }
}
