/**
 The grounding check of an answer (`src/research/agent_loop/verify.rs`): each
 bullet against the fetched pages it links, each citation by the bullets that
 link it.
 */
module Verify {
  import opened Prelude

  /** Ordered as declared; `Missing` and `Partly` are the source's `None` and `Partial`. */
  datatype Support = Unchecked | Missing | Partly | Exact
  {
    function Rank(): nat {
      match this
      case Unchecked => 0
      case Missing => 1
      case Partly => 2
      case Exact => 3
    }

    function Max(other: Support): Support {
      if Rank() < other.Rank() then other else this
    }
  }

  datatype Citation = Citation(url: string, title: Option<string>, support: Support, quote: Option<string>)

  datatype Point = Point(text: string, links: seq<string>, quote: Option<string>, support: Support)

  datatype ThemeSection = ThemeSection(title: string, points: seq<Point>, citations: seq<Citation>)

  datatype Verification = Verification(bullets: nat, cited: nat, exact: nat, partial: nat, none: nat)

  datatype Synthesis = Synthesis(
    summary: string, themes: seq<ThemeSection>, citations: seq<Citation>, verification: Verification)

  datatype Page = Page(sourceUrl: string, markdown: string)

  // ----- Numbers -----

  /** The parts between `.` and `,`, empty ones left out. */
  function DigitGroups(number: string): seq<string> {
    GroupsFrom(number, "")
  }

  function GroupsFrom(rest: string, group: string): seq<string> {
    if rest == "" then (if group == "" then [] else [group])
    else if rest[0] == '.' || rest[0] == ',' then (if group == "" then [] else [group]) + GroupsFrom(rest[1..], "")
    else GroupsFrom(rest[1..], group + [rest[0]])
  }

  predicate ThreeEach(groups: seq<string>) {
    forall i :: 0 <= i < |groups| ==> |groups[i]| == 3
  }

  /** The digits of a whole number, with or without thousands separators. */
  function JoinedThousands(groups: seq<string>): Option<string> {
    if |groups| == 1 || (|groups| > 1 && ThreeEach(groups[1..])) then Some(Flatten(groups)) else None
  }

  predicate NumbersMatch(claim: seq<string>, page: seq<string>) {
    || claim == page
    || (JoinedThousands(claim).Some? && JoinedThousands(claim) == JoinedThousands(page))
    || (|claim| >= 2 && claim <= page)
  }

  /** A number matches itself with its thousands separators dropped, either way round. */
  lemma SeparatorsDoNotMatter(groups: seq<string>)
    requires |groups| > 1 && ThreeEach(groups[1..])
    ensures NumbersMatch(groups, [Flatten(groups)]) && NumbersMatch([Flatten(groups)], groups)
  {
    var whole := Flatten(groups);
    assert Flatten([whole]) == whole + Flatten([]) == whole;
  }

  /** A run of digits: something, and no separator in it. */
  predicate IsGroup(text: string) {
    text != "" && forall i :: 0 <= i < |text| ==> text[i] != '.' && text[i] != ','
  }

  lemma {:induction false} OneGroup(group: string, rest: string)
    requires IsGroup(group + rest)
    ensures GroupsFrom(rest, group) == [group + rest]
    decreases |rest|
  {
    if rest == "" {
      assert group + "" == group;
    } else {
      assert (group + rest)[|group|] == rest[0];
      assert group + rest == group + [rest[0]] + rest[1..];
      OneGroup(group + [rest[0]], rest[1..]);
    }
  }

  predicate IsSeparator(c: char) {
    c == '.' || c == ','
  }

  lemma {:induction false} GroupsAtSeparator(group: string, a: string, c: char, b: string)
    requires IsGroup(group + a) && IsSeparator(c)
    ensures GroupsFrom(a + ([c] + b), group) == [group + a] + GroupsFrom(b, "")
    decreases |a|
  {
    var rest := a + ([c] + b);
    if a == "" {
      assert rest == [c] + b && rest[1..] == b && group + "" == group;
    } else {
      assert (group + a)[|group|] == a[0];
      assert group + a == group + [a[0]] + a[1..];
      assert rest[1..] == a[1..] + ([c] + b);
      GroupsAtSeparator(group + [a[0]], a[1..], c, b);
    }
  }

  lemma TwoGroups(a: string, c: char, b: string)
    requires IsGroup(a) && IsGroup(b) && IsSeparator(c)
    ensures DigitGroups(a + ([c] + b)) == [a, b]
  {
    assert "" + a == a && "" + b == b;
    OneGroup("", b);
    GroupsAtSeparator("", a, c, b);
  }

  lemma FlattenOne(group: string)
    ensures Flatten([group]) == group
  {
    assert Flatten([group]) == group + Flatten([]) == group;
  }

  /**
   What a number of a bullet matches, for every number and every page: one without separators
   every whole number of the same digits, however grouped; any other every number whose groups
   start with its own and, when all its groups after the first have three digits, also every
   whole number of the same digits.
   */
  lemma NumberMatches(claim: seq<string>, page: seq<string>)
    ensures NumbersMatch(claim, page) <==>
              if claim == [] then page == []
              else if |claim| == 1 then JoinedThousands(page) == Some(claim[0])
              else claim <= page || (ThreeEach(claim[1..]) && JoinedThousands(page) == Some(Flatten(claim)))
  {
    if |claim| == 1 {
      FlattenOne(claim[0]);
      assert claim == [claim[0]];
    }
    hide Flatten, ThreeEach;
  }

  /** Two number texts that differ in their separators at most. */
  predicate AlikeButSeparators(w: string, v: string) {
    |w| == |v| && forall i :: 0 <= i < |w| ==> w[i] == v[i] || (IsSeparator(w[i]) && IsSeparator(v[i]))
  }

  lemma {:induction false} GroupsAlike(w: string, v: string, group: string)
    requires AlikeButSeparators(w, v)
    ensures GroupsFrom(w, group) == GroupsFrom(v, group)
  {
    if w != "" {
      assert AlikeButSeparators(w[1..], v[1..]);
      GroupsAlike(w[1..], v[1..], "");
      GroupsAlike(w[1..], v[1..], group + [w[0]]);
    }
  }

  /** Which separator stands where is never looked at: a point and a comma are the same to the match. */
  lemma SeparatorsAreNotSeen(w: string, v: string, other: seq<string>)
    requires AlikeButSeparators(w, v)
    ensures NumbersMatch(DigitGroups(w), DigitGroups(v))
    ensures NumbersMatch(DigitGroups(w), other) <==> NumbersMatch(DigitGroups(v), other)
    ensures NumbersMatch(other, DigitGroups(w)) <==> NumbersMatch(other, DigitGroups(v))
  {
    GroupsAlike(w, v, "");
    hide GroupsFrom;
  }

  /** A whole number of a bullet, written without separators. */
  lemma WholeNumberMatches(w: string, page: seq<string>)
    requires IsGroup(w)
    ensures NumbersMatch(DigitGroups(w), page) <==> JoinedThousands(page) == Some(w)
  {
    assert "" + w == w;
    OneGroup("", w);
    NumberMatches([w], page);
    hide GroupsFrom, NumbersMatch, JoinedThousands;
  }

  /** A decimal of a bullet. */
  lemma DecimalMatches(a: string, b: string, page: seq<string>)
    requires IsGroup(a) && IsGroup(b)
    ensures NumbersMatch(DigitGroups(a + ("." + b)), page)
       <==> [a, b] <= page || (|b| == 3 && JoinedThousands(page) == Some(a + b))
  {
    TwoGroups(a, '.', b);
    NumberMatches([a, b], page);
    FlattenOne(b);
    assert [a, b][1..] == [b] && Flatten([a, b]) == a + b;
    assert ThreeEach([b]) <==> |[b][0]| == 3;
    hide GroupsFrom, NumbersMatch, JoinedThousands, Flatten;
  }

  /**
   So 1.75 passes on a page that only says 1,75,000, 3.125 on one that only says 3125, and
   8192 on one that only says 8.192.
   */
  lemma OtherNumbersPass(a: string, b: string, c: string)
    requires IsGroup(a) && IsGroup(b) && IsGroup(c)
    ensures NumbersMatch(DigitGroups(a + ("." + b)), DigitGroups(a + ("," + (b + ("," + c)))))
    ensures |b| == 3 ==>
              && NumbersMatch(DigitGroups(a + ("." + b)), DigitGroups(a + b))
              && NumbersMatch(DigitGroups(a + b), DigitGroups(a + ("." + b)))
  {
    assert "" + a == a && "" + (a + b) == a + b;
    TwoGroups(a, '.', b);
    TwoGroups(b, ',', c);
    GroupsAtSeparator("", a, ',', b + ("," + c));
    OneGroup("", a + b);
    assert DigitGroups(a + ("," + (b + ("," + c)))) == [a] + [b, c] == [a, b, c];
    if |b| == 3 {
      FlattenOne(b);
      assert [a, b][1..] == [b] && Flatten([a, b]) == a + b;
      SeparatorsDoNotMatter([a, b]);
    }
    hide GroupsFrom, Flatten, JoinedThousands;
  }

  // ----- One page, one bullet -----

  datatype Token = Number(groups: seq<string>) | Code(code: string) | Identifier(ident: string)

  /** The text tools of the check; regular expressions and URL identity stay abstract. */
  datatype Reader = Reader(
    dedupKey: string -> string,
    normalize: string -> string,
    plain: string -> string,
    numbers: string -> seq<string>,
    codes: string -> seq<string>,
    tokens: string -> seq<Token>,
    lastSegment: string -> Option<string>)

  predicate Contains(text: string, part: string) {
    part <= text || (text != "" && Contains(text[1..], part))
  }

  predicate Has(reader: Reader, markdown: string, token: Token) {
    match token
    case Number(groups) =>
      var found := reader.numbers(markdown);
      exists i :: 0 <= i < |found| && NumbersMatch(groups, DigitGroups(found[i]))
    case Code(code) => code in reader.codes(reader.plain(markdown))
    case Identifier(ident) =>
      || Contains(reader.plain(markdown), ident)
      || (reader.lastSegment(ident).Some? && Contains(reader.plain(markdown), reader.lastSegment(ident).value))
  }

  predicate HasAll(reader: Reader, markdown: string, tokens: seq<Token>) {
    forall i :: 0 <= i < |tokens| ==> Has(reader, markdown, tokens[i])
  }

  /** How a page supports a bullet: its quote first, then its checkable facts. */
  function Grade(reader: Reader, markdown: string, text: string, quote: Option<string>): (support: Support)
    ensures support != Unchecked
    ensures support == Missing <==>
              quote.None? || reader.normalize(quote.value) == ""
              || !Contains(reader.normalize(markdown), reader.normalize(quote.value))
    ensures support == Exact <==> support != Missing && HasAll(reader, markdown, reader.tokens(text))
  {
    if quote.None? then Missing
    else
      var wanted := reader.normalize(quote.value);
      if wanted == "" || !Contains(reader.normalize(markdown), wanted) then Missing
      else if HasAll(reader, markdown, reader.tokens(text)) then Exact
      else Partly
  }

  /** The fetched pages by their key; the first page under a key stays. */
  function PagesOf(reader: Reader, evidence: seq<Page>): map<string, string> {
    if evidence == [] then map[]
    else
      var earlier, page := PagesOf(reader, evidence[..|evidence| - 1]), evidence[|evidence| - 1];
      if reader.dedupKey(page.sourceUrl) in earlier then earlier
      else earlier[reader.dedupKey(page.sourceUrl) := page.markdown]
  }

  // ----- Claims: a bullet graded against one page it links -----

  datatype Claim = Claim(url: string, support: Support, quote: Option<string>)

  /** One claim for each linked page that was fetched, in link order. */
  function LinkClaims(reader: Reader, pages: map<string, string>, point: Point, links: seq<string>): seq<Claim> {
    if links == [] then []
    else
      var url := links[|links| - 1];
      LinkClaims(reader, pages, point, links[..|links| - 1])
      + if reader.dedupKey(url) in pages then
          [Claim(url, Grade(reader, pages[reader.dedupKey(url)], point.text, point.quote), point.quote)]
        else []
  }

  function PointClaims(reader: Reader, pages: map<string, string>, point: Point): seq<Claim> {
    LinkClaims(reader, pages, point, point.links)
  }

  function Claims(reader: Reader, pages: map<string, string>, points: seq<Point>): seq<Claim> {
    if points == [] then []
    else
      Claims(reader, pages, points[..|points| - 1]) + PointClaims(reader, pages, points[|points| - 1])
  }

  function Strongest(claims: seq<Claim>, from: Support): Support {
    if claims == [] then from else Strongest(claims[..|claims| - 1], from).Max(claims[|claims| - 1].support)
  }

  /** The strongest claim on exactly this URL, the first of them on a tie. */
  function Best(claims: seq<Claim>, url: string): Option<(Support, Option<string>)> {
    if claims == [] then None
    else
      var earlier, last := Best(claims[..|claims| - 1], url), claims[|claims| - 1];
      if last.url == url && (earlier.None? || earlier.value.0.Rank() < last.support.Rank()) then
        Some((last.support, last.quote))
      else earlier
  }

  function Graded(reader: Reader, pages: map<string, string>, point: Point): Point {
    point.(support := Strongest(PointClaims(reader, pages, point), point.support))
  }

  function Applied(claims: seq<Claim>, citation: Citation): Citation {
    var best := Best(claims, citation.url);
    if best.Some? then citation.(support := best.value.0, quote := best.value.1) else citation
  }

  // ----- The whole answer -----

  function AllPoints(themes: seq<ThemeSection>): seq<Point> {
    if themes == [] then [] else AllPoints(themes[..|themes| - 1]) + themes[|themes| - 1].points
  }

  function GradedAll(reader: Reader, pages: map<string, string>, points: seq<Point>): seq<Point> {
    if points == [] then []
    else GradedAll(reader, pages, points[..|points| - 1]) + [Graded(reader, pages, points[|points| - 1])]
  }

  function AppliedAll(claims: seq<Claim>, citations: seq<Citation>): seq<Citation> {
    if citations == [] then []
    else AppliedAll(claims, citations[..|citations| - 1]) + [Applied(claims, citations[|citations| - 1])]
  }

  /** The themes with their bullets graded, their citations as before. */
  function GradedThemes(reader: Reader, pages: map<string, string>, themes: seq<ThemeSection>): seq<ThemeSection> {
    if themes == [] then []
    else
      var last := themes[|themes| - 1];
      GradedThemes(reader, pages, themes[..|themes| - 1]) + [last.(points := GradedAll(reader, pages, last.points))]
  }

  function AppliedThemes(claims: seq<Claim>, themes: seq<ThemeSection>): seq<ThemeSection> {
    if themes == [] then []
    else
      var last := themes[|themes| - 1];
      AppliedThemes(claims, themes[..|themes| - 1]) + [last.(citations := AppliedAll(claims, last.citations))]
  }

  /** How many bullets have the given support. */
  function Having(points: seq<Point>, support: Support): nat {
    if points == [] then 0
    else Having(points[..|points| - 1], support) + if points[|points| - 1].support == support then 1 else 0
  }

  function Counts(points: seq<Point>): Verification {
    var exact, partial, none := Having(points, Exact), Having(points, Partly), Having(points, Missing);
    Verification(|points|, exact + partial + none, exact, partial, none)
  }

  function Verified(reader: Reader, synthesis: Synthesis, evidence: seq<Page>): Synthesis {
    var pages := PagesOf(reader, evidence);
    var claims := Claims(reader, pages, AllPoints(synthesis.themes));
    Synthesis(synthesis.summary,
      AppliedThemes(claims, GradedThemes(reader, pages, synthesis.themes)),
      AppliedAll(claims, synthesis.citations),
      Counts(GradedAll(reader, pages, AllPoints(synthesis.themes))))
  }

  /** The map the check keeps holds the best claim of each URL so far. */
  ghost predicate BestTells(best: map<string, (Support, Option<string>)>, claims: seq<Claim>) {
    && (forall url :: url in best <==> Best(claims, url).Some?)
    && (forall url :: url in best ==> Best(claims, url) == Some(best[url]))
    && (forall url :: url in best ==> best[url].0 != Unchecked)
  }

  lemma {:induction false} BestSnoc(claims: seq<Claim>, claim: Claim, url: string)
    ensures Best(claims + [claim], url)
         == var earlier := Best(claims, url);
            if claim.url == url && (earlier.None? || earlier.value.0.Rank() < claim.support.Rank()) then
              Some((claim.support, claim.quote))
            else earlier
  {
    assert (claims + [claim])[..|claims|] == claims;
  }

  /** One claim entered into the map, as `entry(..).or_insert(..)` and the comparison do. */
  method Enter(best: map<string, (Support, Option<string>)>, claim: Claim, ghost claims: seq<Claim>)
    returns (grown: map<string, (Support, Option<string>)>)
    requires BestTells(best, claims) && claim.support != Unchecked
    ensures BestTells(grown, claims + [claim])
  {
    forall url
      ensures Best(claims + [claim], url)
           == if claim.url == url && (url !in best || best[url].0.Rank() < claim.support.Rank()) then
                Some((claim.support, claim.quote))
              else Best(claims, url)
    {
      BestSnoc(claims, claim, url);
    }
    hide Best;
    var entry := if claim.url in best then best[claim.url] else (Unchecked, None);
    if claim.support.Rank() > entry.0.Rank() {
      entry := (claim.support, claim.quote);
    }
    grown := best[claim.url := entry];
  }

  method CheckPoint(
    reader: Reader, point: Point, pages: map<string, string>, best: map<string, (Support, Option<string>)>,
    ghost claims: seq<Claim>)
    returns (checked: Point, grown: map<string, (Support, Option<string>)>)
    requires BestTells(best, claims)
    ensures checked == Graded(reader, pages, point)
    ensures BestTells(grown, claims + PointClaims(reader, pages, point))
  {
    checked, grown := point, best;
    assert claims + [] == claims;
    for i := 0 to |point.links|
      invariant checked ==
                  point.(support := Strongest(LinkClaims(reader, pages, point, point.links[..i]), point.support))
      invariant BestTells(grown, claims + LinkClaims(reader, pages, point, point.links[..i]))
    {
      var url := point.links[i];
      ghost var earlier := LinkClaims(reader, pages, point, point.links[..i]);
      assert point.links[..i + 1][..i] == point.links[..i];
      if reader.dedupKey(url) in pages {
        var support := Grade(reader, pages[reader.dedupKey(url)], point.text, point.quote);
        var claim := Claim(url, support, point.quote);
        ConcatAssociates(claims, earlier, [claim]);
        assert (earlier + [claim])[..|earlier|] == earlier;
        hide BestTells, Grade;
        checked := checked.(support := checked.support.Max(support));
        grown := Enter(grown, claim, claims + earlier);
      } else {
        assert earlier + [] == earlier;
      }
    }
    assert point.links[..|point.links|] == point.links;
  }

  lemma AllPointsSnoc(themes: seq<ThemeSection>, theme: ThemeSection)
    ensures AllPoints(themes + [theme]) == AllPoints(themes) + theme.points
  {
    assert (themes + [theme])[..|themes|] == themes;
  }

  lemma CountsSnoc(points: seq<Point>, point: Point, support: Support)
    ensures Having(points + [point], support) == Having(points, support) + if point.support == support then 1 else 0
  {
    assert (points + [point])[..|points|] == points;
  }

  /** The counters after one more checked bullet. */
  method Count(counters: Verification, point: Point, ghost points: seq<Point>) returns (counted: Verification)
    requires counters == Counts(points)
    ensures counted == Counts(points + [point])
  {
    CountsSnoc(points, point, Exact);
    CountsSnoc(points, point, Partly);
    CountsSnoc(points, point, Missing);
    hide Having;
    counted := counters.(bullets := counters.bullets + 1);
    if point.support == Unchecked {
      return;
    }
    counted := counted.(cited := counted.cited + 1);
    if point.support == Exact {
      counted := counted.(exact := counted.exact + 1);
    } else if point.support == Partly {
      counted := counted.(partial := counted.partial + 1);
    } else {
      counted := counted.(none := counted.none + 1);
    }
  }

  lemma PointStep(reader: Reader, pages: map<string, string>, points: seq<Point>, i: nat)
    requires i < |points|
    ensures points[..i + 1] == points[..i] + [points[i]]
    ensures Claims(reader, pages, points[..i + 1])
         == Claims(reader, pages, points[..i]) + PointClaims(reader, pages, points[i])
    ensures GradedAll(reader, pages, points[..i + 1])
         == GradedAll(reader, pages, points[..i]) + [Graded(reader, pages, points[i])]
  {
    assert points[..i + 1][..i] == points[..i];
  }

  /** The bullets of one theme. */
  method CheckTheme(
    reader: Reader, theme: ThemeSection, pages: map<string, string>, best: map<string, (Support, Option<string>)>,
    counters: Verification, ghost before: seq<Point>)
    returns (checked: ThemeSection, grown: map<string, (Support, Option<string>)>, counted: Verification)
    requires BestTells(best, Claims(reader, pages, before)) && counters == Counts(GradedAll(reader, pages, before))
    ensures checked == theme.(points := GradedAll(reader, pages, theme.points))
    ensures BestTells(grown, Claims(reader, pages, before + theme.points))
    ensures counted == Counts(GradedAll(reader, pages, before + theme.points))
  {
    Nothing(reader, pages);
    hide *;
    var points: seq<Point> := [];
    grown, counted := best, counters;
    assert before + theme.points[..0] == before && theme.points[..0] == [];
    for i := 0 to |theme.points|
      invariant points == GradedAll(reader, pages, theme.points[..i])
      invariant BestTells(grown, Claims(reader, pages, before + theme.points[..i]))
      invariant counted == Counts(GradedAll(reader, pages, before + theme.points[..i]))
    {
      var point := theme.points[i];
      ghost var sofar := before + theme.points[..i];
      PointStep(reader, pages, theme.points, i);
      PointSnoc(reader, pages, sofar, point);
      assert before + theme.points[..i + 1] == sofar + [point];
      var graded;
      graded, grown := CheckPoint(reader, point, pages, grown, Claims(reader, pages, sofar));
      counted := Count(counted, graded, GradedAll(reader, pages, sofar));
      points := points + [graded];
    }
    assert theme.points[..|theme.points|] == theme.points;
    checked := theme.(points := points);
  }

  lemma Nothing(reader: Reader, pages: map<string, string>)
    ensures GradedAll(reader, pages, []) == [] && GradedThemes(reader, pages, []) == [] && AllPoints([]) == []
    ensures BestTells(map[], Claims(reader, pages, []))
    ensures Counts([]) == Verification(0, 0, 0, 0, 0)
  {
  }

  lemma PointSnoc(reader: Reader, pages: map<string, string>, points: seq<Point>, point: Point)
    ensures Claims(reader, pages, points + [point])
         == Claims(reader, pages, points) + PointClaims(reader, pages, point)
    ensures GradedAll(reader, pages, points + [point])
         == GradedAll(reader, pages, points) + [Graded(reader, pages, point)]
  {
    assert (points + [point])[..|points|] == points;
  }

  lemma ThemeSnoc(reader: Reader, pages: map<string, string>, themes: seq<ThemeSection>, theme: ThemeSection)
    ensures GradedThemes(reader, pages, themes + [theme])
         == GradedThemes(reader, pages, themes) + [theme.(points := GradedAll(reader, pages, theme.points))]
  {
    assert (themes + [theme])[..|themes|] == themes;
  }

  method StorePages(reader: Reader, evidence: seq<Page>) returns (pages: map<string, string>)
    ensures pages == PagesOf(reader, evidence)
  {
    pages := map[];
    for i := 0 to |evidence|
      invariant pages == PagesOf(reader, evidence[..i])
    {
      assert evidence[..i + 1][..i] == evidence[..i];
      var key := reader.dedupKey(evidence[i].sourceUrl);
      if key !in pages {
        pages := pages[key := evidence[i].markdown];
      }
    }
    assert evidence[..|evidence|] == evidence;
  }

  method ApplyBest(best: map<string, (Support, Option<string>)>, citations: seq<Citation>, ghost claims: seq<Claim>)
    returns (applied: seq<Citation>)
    requires BestTells(best, claims)
    ensures applied == AppliedAll(claims, citations)
  {
    hide Best;
    applied := [];
    for i := 0 to |citations|
      invariant applied == AppliedAll(claims, citations[..i])
    {
      assert citations[..i + 1][..i] == citations[..i];
      var citation := citations[i];
      if citation.url in best {
        citation := citation.(support := best[citation.url].0, quote := best[citation.url].1);
      }
      applied := applied + [citation];
    }
    assert citations[..|citations|] == citations;
  }

  method VerifySynthesis(reader: Reader, synthesis: Synthesis, evidence: seq<Page>) returns (verified: Synthesis)
    ensures verified == Verified(reader, synthesis, evidence)
  {
    var pages := StorePages(reader, evidence);
    Nothing(reader, pages);
    hide PagesOf, Claims, GradedAll, GradedThemes, AllPoints, Counts, BestTells, AppliedAll, AppliedThemes;
    var best: map<string, (Support, Option<string>)> := map[];
    var counters := Verification(0, 0, 0, 0, 0);
    var checked: seq<ThemeSection>, themes: seq<ThemeSection> := [], [];
    for i := 0 to |synthesis.themes|
      invariant checked == GradedThemes(reader, pages, synthesis.themes[..i])
      invariant BestTells(best, Claims(reader, pages, AllPoints(synthesis.themes[..i])))
      invariant counters == Counts(GradedAll(reader, pages, AllPoints(synthesis.themes[..i])))
    {
      var theme := synthesis.themes[i];
      assert synthesis.themes[..i + 1] == synthesis.themes[..i] + [theme];
      AllPointsSnoc(synthesis.themes[..i], theme);
      ThemeSnoc(reader, pages, synthesis.themes[..i], theme);
      var one;
      one, best, counters := CheckTheme(reader, theme, pages, best, counters, AllPoints(synthesis.themes[..i]));
      checked := checked + [one];
    }
    assert synthesis.themes[..|synthesis.themes|] == synthesis.themes;
    ghost var claims := Claims(reader, pages, AllPoints(synthesis.themes));
    var citations := ApplyBest(best, synthesis.citations, claims);
    AppliedNone(claims);
    for i := 0 to |checked|
      invariant themes == AppliedThemes(claims, checked[..i])
    {
      AppliedSnoc(claims, checked, i);
      var applied := ApplyBest(best, checked[i].citations, claims);
      themes := themes + [checked[i].(citations := applied)];
    }
    assert checked[..|checked|] == checked;
    verified := Synthesis(synthesis.summary, themes, citations, counters);
  }

  lemma AppliedNone(claims: seq<Claim>)
    ensures AppliedThemes(claims, []) == []
  {
  }

  lemma AppliedSnoc(claims: seq<Claim>, themes: seq<ThemeSection>, i: nat)
    requires i < |themes|
    ensures AppliedThemes(claims, themes[..i + 1])
         == AppliedThemes(claims, themes[..i]) + [themes[i].(citations := AppliedAll(claims, themes[i].citations))]
  {
    assert themes[..i + 1][..i] == themes[..i];
  }

  // ----- What a verified answer says -----

  lemma {:induction false} HavingIsBounded(points: seq<Point>)
    ensures Having(points, Exact) + Having(points, Partly) + Having(points, Missing) + Having(points, Unchecked)
         == |points|
  {
    if points != [] {
      HavingIsBounded(points[..|points| - 1]);
    }
  }

  /** Every cited bullet is counted under one support, and the rest are the unchecked ones. */
  lemma CountersAddUp(reader: Reader, synthesis: Synthesis, evidence: seq<Page>)
    ensures var checked := Verified(reader, synthesis, evidence).verification;
            && checked.exact + checked.partial + checked.none == checked.cited <= checked.bullets
            && checked.bullets == |AllPoints(synthesis.themes)|
            && checked.bullets - checked.cited
               == Having(GradedAll(reader, PagesOf(reader, evidence), AllPoints(synthesis.themes)), Unchecked)
  {
    var points := GradedAll(reader, PagesOf(reader, evidence), AllPoints(synthesis.themes));
    HavingIsBounded(points);
    GradedKeepsCount(reader, PagesOf(reader, evidence), AllPoints(synthesis.themes));
    hide Having, GradedAll, AllPoints, PagesOf, AppliedThemes, GradedThemes, Claims, AppliedAll;
  }

  lemma {:induction false} GradedKeepsCount(reader: Reader, pages: map<string, string>, points: seq<Point>)
    ensures |GradedAll(reader, pages, points)| == |points|
    ensures forall i :: 0 <= i < |points| ==> GradedAll(reader, pages, points)[i] == Graded(reader, pages, points[i])
  {
    hide Graded;
    if points != [] {
      GradedKeepsCount(reader, pages, points[..|points| - 1]);
    }
  }

  /** The claim link `i` of a bullet makes, when the page it links was fetched. */
  function ClaimAt(reader: Reader, pages: map<string, string>, point: Point, i: nat): Option<Claim>
    requires i < |point.links|
  {
    var key := reader.dedupKey(point.links[i]);
    if key in pages then Some(Claim(point.links[i], Grade(reader, pages[key], point.text, point.quote), point.quote))
    else None
  }

  /** The claims of a bullet are exactly those of its links. */
  lemma {:induction false} ClaimsAreTheLinks(
    reader: Reader, pages: map<string, string>, point: Point, n: nat, claim: Claim)
    requires n <= |point.links|
    ensures claim in LinkClaims(reader, pages, point, point.links[..n])
       <==> exists i :: 0 <= i < n && ClaimAt(reader, pages, point, i) == Some(claim)
  {
    hide Grade, LinkClaims;
    if n == 0 {
      NoLinkClaims(reader, pages, point);
    } else {
      ClaimsAreTheLinks(reader, pages, point, n - 1, claim);
      assert point.links[..n] == point.links[..n - 1] + [point.links[n - 1]];
      LinkClaimsSnoc(reader, pages, point, point.links[..n - 1], point.links[n - 1]);
      var last := ClaimAt(reader, pages, point, n - 1);
      assert LinkClaims(reader, pages, point, point.links[..n])
          == LinkClaims(reader, pages, point, point.links[..n - 1]) + if last.Some? then [last.value] else [];
      hide ClaimAt;
    }
  }

  lemma {:induction false} StrongestIsMax(claims: seq<Claim>, claim: Claim)
    ensures claim in claims ==> claim.support.Rank() <= Strongest(claims, Unchecked).Rank()
    ensures Strongest(claims, Unchecked) != Unchecked ==>
              exists best :: best in claims && best.support == Strongest(claims, Unchecked)
  {
    if claims != [] {
      var n := |claims| - 1;
      StrongestIsMax(claims[..n], claim);
      assert claims == claims[..n] + [claims[n]];
      assert claims[n] in claims;
    }
  }

  /** A fresh bullet's support is the greatest any fetched page it links gives it, and unchecked without one. */
  lemma BulletSupportIsMax(reader: Reader, pages: map<string, string>, point: Point, i: nat)
    requires point.support == Unchecked && i < |point.links|
    ensures var support := Graded(reader, pages, point).support;
            && (ClaimAt(reader, pages, point, i).Some? ==>
                  ClaimAt(reader, pages, point, i).value.support.Rank() <= support.Rank())
            && (support != Unchecked ==>
                  exists j :: 0 <= j < |point.links| && ClaimAt(reader, pages, point, j).Some?
                    && ClaimAt(reader, pages, point, j).value.support == support)
  {
    hide LinkClaims, Strongest, ClaimAt;
    var claims := PointClaims(reader, pages, point);
    assert point.links[..|point.links|] == point.links;
    var mine := ClaimAt(reader, pages, point, i);
    var claim := if mine.Some? then mine.value else Claim("", Unchecked, None);
    ClaimsAreTheLinks(reader, pages, point, |point.links|, claim);
    StrongestIsMax(claims, claim);
    if Strongest(claims, Unchecked) != Unchecked {
      var best :| best in claims && best.support == Strongest(claims, Unchecked);
      ClaimsAreTheLinks(reader, pages, point, |point.links|, best);
    }
  }

  // ----- Citations -----

  /** Whether a bullet links exactly this URL and the page behind it was fetched. */
  predicate Cites(reader: Reader, pages: map<string, string>, point: Point, url: string) {
    url in point.links && reader.dedupKey(url) in pages
  }

  /** The support the page behind the URL gives a bullet. */
  function GradeOn(reader: Reader, pages: map<string, string>, point: Point, url: string): Support
    requires reader.dedupKey(url) in pages
  {
    Grade(reader, pages[reader.dedupKey(url)], point.text, point.quote)
  }

  /** Bullet `p` is the first of those its page supports best, among the bullets that cite the URL. */
  predicate IsFirstBest(reader: Reader, pages: map<string, string>, points: seq<Point>, url: string, p: int) {
    && 0 <= p < |points| && Cites(reader, pages, points[p], url)
    && (forall q :: 0 <= q < |points| && Cites(reader, pages, points[q], url) ==>
          GradeOn(reader, pages, points[q], url).Rank() <= GradeOn(reader, pages, points[p], url).Rank())
    && (forall q :: 0 <= q < p && Cites(reader, pages, points[q], url) ==>
          GradeOn(reader, pages, points[q], url).Rank() < GradeOn(reader, pages, points[p], url).Rank())
  }

  function Better(
    best: Option<(Support, Option<string>)>, support: Support, quote: Option<string>): Option<(Support, Option<string>)>
  {
    if best.None? || best.value.0.Rank() < support.Rank() then Some((support, quote)) else best
  }

  /** What the first `n` links of one bullet add to the best claim on a URL. */
  lemma {:induction false} BestWithPoint(
    reader: Reader, pages: map<string, string>, earlier: seq<Claim>, point: Point, n: nat, url: string)
    requires n <= |point.links|
    ensures Best(earlier + LinkClaims(reader, pages, point, point.links[..n]), url)
         == if url in point.links[..n] && reader.dedupKey(url) in pages then
              Better(Best(earlier, url), GradeOn(reader, pages, point, url), point.quote)
            else Best(earlier, url)
  {
    hide Grade, Best, LinkClaims, GradeOn;
    if n == 0 {
      NoLinkClaims(reader, pages, point);
      assert earlier + [] == earlier && point.links[..0] == [];
    } else {
      var links, link := point.links[..n - 1], point.links[n - 1];
      var claims := LinkClaims(reader, pages, point, links);
      BestWithPoint(reader, pages, earlier, point, n - 1, url);
      assert point.links[..n] == links + [link];
      LinkClaimsSnoc(reader, pages, point, links, link);
      if reader.dedupKey(link) in pages {
        var claim := Claim(link, GradeOn(reader, pages, point, link), point.quote);
        ConcatAssociates(earlier, claims, [claim]);
        BestSnoc(earlier + claims, claim, url);
      } else {
        assert claims + [] == claims;
      }
    }
  }

  lemma NoLinkClaims(reader: Reader, pages: map<string, string>, point: Point)
    ensures LinkClaims(reader, pages, point, []) == []
  {
  }

  lemma {:induction false} LinkClaimsSnoc(
    reader: Reader, pages: map<string, string>, point: Point, links: seq<string>, link: string)
    ensures LinkClaims(reader, pages, point, links + [link])
         == LinkClaims(reader, pages, point, links)
            + if reader.dedupKey(link) in pages then [Claim(link, GradeOn(reader, pages, point, link), point.quote)]
              else []
  {
    hide Grade;
    assert (links + [link])[..|links|] == links;
  }

  /**
   The best claim on a URL is that of the first bullet whose page supports it best, and none
   without such a bullet.
   */
  lemma {:induction false} BestIsTheFirstBest(
    reader: Reader, pages: map<string, string>, points: seq<Point>, url: string)
    ensures var best := Best(Claims(reader, pages, points), url);
            && (best.None? <==> forall p :: 0 <= p < |points| ==> !Cites(reader, pages, points[p], url))
            && (best.Some? ==>
                  exists p :: IsFirstBest(reader, pages, points, url, p)
                    && best.value == (GradeOn(reader, pages, points[p], url), points[p].quote))
  {
    if points != [] {
      var n := |points| - 1;
      var earlier, last := points[..n], points[n];
      BestIsTheFirstBest(reader, pages, earlier, url);
      assert points == earlier + [last] && last.links[..|last.links|] == last.links;
      BestWithPoint(reader, pages, Claims(reader, pages, earlier), last, |last.links|, url);
      var before := Best(Claims(reader, pages, earlier), url);
      hide Best, Claims, GradeOn;
      FirstBestStep(reader, pages, earlier, last, url, before);
    }
  }

  lemma FirstBestStep(
    reader: Reader, pages: map<string, string>, earlier: seq<Point>, last: Point, url: string,
    before: Option<(Support, Option<string>)>)
    requires before.None? ==> forall p :: 0 <= p < |earlier| ==> !Cites(reader, pages, earlier[p], url)
    requires before.Some? ==>
               exists p :: IsFirstBest(reader, pages, earlier, url, p)
                 && before.value == (GradeOn(reader, pages, earlier[p], url), earlier[p].quote)
    ensures var points := earlier + [last];
            var best :=
              if Cites(reader, pages, last, url) then Better(before, GradeOn(reader, pages, last, url), last.quote)
              else before;
            best.Some? ==>
              exists p :: IsFirstBest(reader, pages, points, url, p)
                && best.value == (GradeOn(reader, pages, points[p], url), points[p].quote)
  {
    hide GradeOn;
    var points, n := earlier + [last], |earlier|;
    if before.Some? {
      var p :| IsFirstBest(reader, pages, earlier, url, p)
               && before.value == (GradeOn(reader, pages, earlier[p], url), earlier[p].quote);
      if Cites(reader, pages, last, url) && before.value.0.Rank() < GradeOn(reader, pages, last, url).Rank() {
        assert IsFirstBest(reader, pages, points, url, n);
      } else {
        assert IsFirstBest(reader, pages, points, url, p);
      }
    } else if Cites(reader, pages, last, url) {
      assert IsFirstBest(reader, pages, points, url, n);
    }
  }

  /**
   How a citation stands to the bullets of the answer: untouched when none of them links its URL to a fetched page,
   else with the support and the quote of the first one its page supports best.
   */
  ghost predicate StandsOn(
    reader: Reader, pages: map<string, string>, points: seq<Point>, citation: Citation, verified: Citation)
  {
    || (verified == citation && forall p :: 0 <= p < |points| ==> !Cites(reader, pages, points[p], citation.url))
    || exists p :: IsFirstBest(reader, pages, points, citation.url, p)
         && verified == citation.(support := GradeOn(reader, pages, points[p], citation.url), quote := points[p].quote)
  }

  lemma {:induction false} AppliedAre(claims: seq<Claim>, citations: seq<Citation>, k: nat)
    ensures |AppliedAll(claims, citations)| == |citations|
    ensures k < |citations| ==> AppliedAll(claims, citations)[k] == Applied(claims, citations[k])
  {
    hide Applied;
    if citations != [] {
      AppliedAre(claims, citations[..|citations| - 1], k);
    }
  }

  lemma AppliedStands(reader: Reader, pages: map<string, string>, points: seq<Point>, citation: Citation)
    ensures StandsOn(reader, pages, points, citation, Applied(Claims(reader, pages, points), citation))
  {
    BestIsTheFirstBest(reader, pages, points, citation.url);
    hide Best, Claims, GradeOn, Cites;
  }

  /** Every citation of the checked answer, of the whole of it and of each theme, stands on the answer's bullets. */
  lemma CitationsStandOnBullets(reader: Reader, synthesis: Synthesis, evidence: seq<Page>, k: nat)
    requires k < |synthesis.citations|
    ensures var verified := Verified(reader, synthesis, evidence);
            && |verified.citations| == |synthesis.citations|
            && StandsOn(reader, PagesOf(reader, evidence), AllPoints(synthesis.themes), synthesis.citations[k],
                 verified.citations[k])
  {
    var pages, points := PagesOf(reader, evidence), AllPoints(synthesis.themes);
    AppliedAre(Claims(reader, pages, points), synthesis.citations, k);
    AppliedStands(reader, pages, points, synthesis.citations[k]);
    hide StandsOn, Applied, AppliedAll, Claims, AllPoints, PagesOf;
  }

  lemma {:induction false} ThemesAre(
    reader: Reader, pages: map<string, string>, claims: seq<Claim>, themes: seq<ThemeSection>, t: nat)
    ensures |AppliedThemes(claims, GradedThemes(reader, pages, themes))| == |GradedThemes(reader, pages, themes)|
         == |themes|
    ensures t < |themes| ==>
              AppliedThemes(claims, GradedThemes(reader, pages, themes))[t].citations
              == AppliedAll(claims, themes[t].citations)
  {
    hide AppliedAll, GradedAll;
    if themes != [] {
      var n := |themes| - 1;
      ThemesAre(reader, pages, claims, themes[..n], t);
      var graded := GradedThemes(reader, pages, themes);
      assert graded[..n] == GradedThemes(reader, pages, themes[..n]);
      assert graded[n] == themes[n].(points := GradedAll(reader, pages, themes[n].points));
      hide GradedThemes;
    }
  }

  lemma ThemeCitationsStandOnBullets(reader: Reader, synthesis: Synthesis, evidence: seq<Page>, t: nat, k: nat)
    requires t < |synthesis.themes| && k < |synthesis.themes[t].citations|
    ensures var verified := Verified(reader, synthesis, evidence);
            && |verified.themes| == |synthesis.themes|
            && |verified.themes[t].citations| == |synthesis.themes[t].citations|
            && StandsOn(reader, PagesOf(reader, evidence), AllPoints(synthesis.themes),
                    synthesis.themes[t].citations[k],
                 verified.themes[t].citations[k])
  {
    var pages, points := PagesOf(reader, evidence), AllPoints(synthesis.themes);
    var claims := Claims(reader, pages, points);
    ThemesAre(reader, pages, claims, synthesis.themes, t);
    AppliedAre(claims, synthesis.themes[t].citations, k);
    AppliedStands(reader, pages, points, synthesis.themes[t].citations[k]);
    hide StandsOn, Applied, AppliedAll, Claims, AllPoints, PagesOf, AppliedThemes, GradedThemes;
  }

  /** Supports and citation quotes wiped, as before any check. */
  function Bare(synthesis: Synthesis): Synthesis {
    Synthesis(synthesis.summary, BareThemes(synthesis.themes), BareCitations(synthesis.citations),
      Verification(0, 0, 0, 0, 0))
  }

  function BarePoints(points: seq<Point>): seq<Point> {
    if points == [] then [] else BarePoints(points[..|points| - 1]) + [points[|points| - 1].(support := Unchecked)]
  }

  function BareCitations(citations: seq<Citation>): seq<Citation> {
    if citations == [] then []
    else
      BareCitations(citations[..|citations| - 1])
      + [citations[|citations| - 1].(support := Unchecked, quote := None)]
  }

  function BareThemes(themes: seq<ThemeSection>): seq<ThemeSection> {
    if themes == [] then []
    else
      var last := themes[|themes| - 1];
      BareThemes(themes[..|themes| - 1])
      + [ThemeSection(last.title, BarePoints(last.points), BareCitations(last.citations))]
  }

  lemma {:induction false} GradingKeepsPoints(reader: Reader, pages: map<string, string>, points: seq<Point>)
    ensures BarePoints(GradedAll(reader, pages, points)) == BarePoints(points)
  {
    hide PointClaims, Strongest;
    if points != [] {
      GradingKeepsPoints(reader, pages, points[..|points| - 1]);
    }
  }

  lemma {:induction false} ApplyingKeepsCitations(claims: seq<Claim>, citations: seq<Citation>)
    ensures BareCitations(AppliedAll(claims, citations)) == BareCitations(citations)
  {
    hide Best;
    if citations != [] {
      ApplyingKeepsCitations(claims, citations[..|citations| - 1]);
    }
  }

  lemma {:induction false} ThemesAreKept(
    reader: Reader, pages: map<string, string>, claims: seq<Claim>, themes: seq<ThemeSection>)
    ensures BareThemes(AppliedThemes(claims, GradedThemes(reader, pages, themes))) == BareThemes(themes)
  {
    if themes != [] {
      var n := |themes| - 1;
      ThemesAreKept(reader, pages, claims, themes[..n]);
      GradingKeepsPoints(reader, pages, themes[n].points);
      ApplyingKeepsCitations(claims, themes[n].citations);
      hide GradedAll, AppliedAll, BarePoints, BareCitations;
    }
  }

  /** No bullet or citation is added, dropped, reordered or reworded: only supports and citation quotes change. */
  lemma OnlySupportsChange(reader: Reader, synthesis: Synthesis, evidence: seq<Page>)
    ensures Bare(Verified(reader, synthesis, evidence)) == Bare(synthesis)
  {
    var pages := PagesOf(reader, evidence);
    var claims := Claims(reader, pages, AllPoints(synthesis.themes));
    ThemesAreKept(reader, pages, claims, synthesis.themes);
    ApplyingKeepsCitations(claims, synthesis.citations);
    hide PagesOf, Claims, AllPoints, GradedAll, GradedThemes, AppliedThemes, AppliedAll, BareThemes, BareCitations;
  }

  /** Every key's page is that of the first evidence under it. */
  lemma {:induction false} FirstPageStays(reader: Reader, evidence: seq<Page>, key: string)
    ensures key in PagesOf(reader, evidence) <==>
            exists i :: 0 <= i < |evidence| && reader.dedupKey(evidence[i].sourceUrl) == key
    ensures key in PagesOf(reader, evidence) ==>
            exists i :: 0 <= i < |evidence| && reader.dedupKey(evidence[i].sourceUrl) == key
              && PagesOf(reader, evidence)[key] == evidence[i].markdown
              && forall j :: 0 <= j < i ==> reader.dedupKey(evidence[j].sourceUrl) != key
  {
    if evidence != [] {
      var n := |evidence| - 1;
      FirstPageStays(reader, evidence[..n], key);
      assert evidence == evidence[..n] + [evidence[n]];
    }
  }
}
