/**
 Merging search results (`src/web/search/dedup.rs`): rows are ordered by leg,
 folded into one group per URL identity, scored and sorted.

 `LegRow` rows are rows in leg order. `GroupOf` is the group of one key's rows,
 and `IsFusion` says what a merge returns, whatever the order of its hash maps.
 Scores are of any ordered type, added by any operation at all.
 */
module Fusion {
  import opened Prelude

  datatype Provider = Startpage | Brave | Yahoo | DuckDuckGo | Bing | CratesIo

  function Priority(provider: Provider): nat {
    match provider
    case Startpage => 0
    case Brave => 1
    case Yahoo => 2
    case DuckDuckGo => 3
    case Bing => 4
    case CratesIo => 5
  }

  /** One for a general engine, two for a registry answering for its own domain. */
  function LegWeight(provider: Provider): nat {
    if provider == CratesIo then 2 else 1
  }

  datatype Row = Row(
    title: string, url: string, snippet: string, provider: Provider, query: string, rank: nat, date: Option<string>)

  datatype Merged = Merged(
    title: string,
    canonicalUrl: string,
    displayUrl: string,
    snippet: string,
    providers: seq<Provider>,
    queries: seq<string>,
    bestRank: nat,
    hitCount: nat,
    date: Option<string>)

  /** A leg is one provider asked one query. */
  datatype Leg = Leg(priority: nat, query: nat)

  datatype LegRank = LegRank(rank: nat, weight: nat)

  datatype Group = Group(merged: Merged, legRanks: seq<LegRank>, lastLeg: Leg)

  /** URL identity, and the score type with its operations and order. */
  datatype Setup<!S> = Setup(
    dedupKey: string -> string,
    term: LegRank -> S, zero: S, add: (S, S) -> S, times: (S, S) -> S, factor: Merged -> S,
    less: (S, S) -> bool)

  datatype Scored<S> = Scored(merged: Merged, score: S)

  // ----- Orders -----

  predicate LegLess(a: Leg, b: Leg) {
    a.priority < b.priority || (a.priority == b.priority && a.query < b.query)
  }

  predicate RankLess(a: LegRank, b: LegRank) {
    a.rank < b.rank || (a.rank == b.rank && a.weight < b.weight)
  }

  /** What the score's total order is assumed to be. */
  ghost predicate IsTotal<S(!new)>(setup: Setup<S>) {
    && (forall x, y :: setup.less(x, y) ==> x != y && !setup.less(y, x))
    && (forall x, y :: setup.less(x, y) || x == y || setup.less(y, x))
    && (forall x, y, z :: setup.less(x, y) && setup.less(y, z) ==> setup.less(x, z))
  }

  /** `compare_scored`: the better score, then more queries, then the better rank, then the display URL. */
  predicate Before<S(==)>(setup: Setup<S>, a: Scored<S>, b: Scored<S>) {
    || setup.less(b.score, a.score)
    || (a.score == b.score &&
          (|b.merged.queries| < |a.merged.queries|
           || (|b.merged.queries| == |a.merged.queries| &&
                 (a.merged.bestRank < b.merged.bestRank
                  || (a.merged.bestRank == b.merged.bestRank && TextLess(a.merged.displayUrl, b.merged.displayUrl))))))
  }

  /** The comparison orders any two entries with different display URLs, strictly. */
  lemma {:induction false} BeforeIsStrict<S(!new)>(setup: Setup<S>, a: Scored<S>, b: Scored<S>)
    requires IsTotal(setup)
    ensures Before(setup, a, b) ==> !Before(setup, b, a)
    ensures a.merged.displayUrl != b.merged.displayUrl ==> Before(setup, a, b) || Before(setup, b, a)
  {
    TextLessIsTotal(a.merged.displayUrl, b.merged.displayUrl);
    hide TextLess;
  }

  lemma {:induction false} BeforeIsTransitive<S(!new)>(setup: Setup<S>, a: Scored<S>, b: Scored<S>, c: Scored<S>)
    requires IsTotal(setup) && Before(setup, a, b) && Before(setup, b, c)
    ensures Before(setup, a, c)
  {
    if TextLess(a.merged.displayUrl, b.merged.displayUrl) && TextLess(b.merged.displayUrl, c.merged.displayUrl) {
      TextLessIsTransitive(a.merged.displayUrl, b.merged.displayUrl, c.merged.displayUrl);
    }
    hide TextLess;
  }

  // ----- Scores -----

  function InsertRank(sorted: seq<LegRank>, x: LegRank): seq<LegRank> {
    if sorted == [] || !RankLess(sorted[0], x) then [x] + sorted else [sorted[0]] + InsertRank(sorted[1..], x)
  }

  function SortRanks(ranks: seq<LegRank>): seq<LegRank> {
    if ranks == [] then [] else InsertRank(SortRanks(ranks[..|ranks| - 1]), ranks[|ranks| - 1])
  }

  function SumUp<S>(setup: Setup<S>, ranks: seq<LegRank>): S {
    if ranks == [] then setup.zero
    else setup.add(SumUp(setup, ranks[..|ranks| - 1]), setup.term(ranks[|ranks| - 1]))
  }

  /** The terms of the legs, summed from the best rank on. */
  function RrfScore<S>(setup: Setup<S>, ranks: seq<LegRank>): S {
    SumUp(setup, SortRanks(ranks))
  }

  predicate RanksAscend(ranks: seq<LegRank>) {
    forall i, j :: 0 <= i < j < |ranks| ==> !RankLess(ranks[j], ranks[i])
  }

  lemma {:induction false} InsertingRank(sorted: seq<LegRank>, x: LegRank)
    requires RanksAscend(sorted)
    ensures RanksAscend(InsertRank(sorted, x))
    ensures multiset(InsertRank(sorted, x)) == multiset(sorted) + multiset{x}
  {
    if sorted != [] && RankLess(sorted[0], x) {
      var first, later := sorted[0], sorted[1..];
      InsertingRank(later, x);
      var rest := InsertRank(later, x);
      assert sorted == [first] + later && InsertRank(sorted, x) == [first] + rest;
      assert multiset([first] + later) == multiset([first]) + multiset(later);
      hide InsertRank;
      forall i | 0 <= i < |rest|
        ensures !RankLess(rest[i], first)
      {
        assert rest[i] in multiset(rest);
        assert rest[i] == x || rest[i] in later;
      }
    }
  }

  lemma {:induction false} SortingRanks(ranks: seq<LegRank>)
    ensures RanksAscend(SortRanks(ranks)) && multiset(SortRanks(ranks)) == multiset(ranks)
  {
    if ranks != [] {
      var n := |ranks| - 1;
      SortingRanks(ranks[..n]);
      InsertingRank(SortRanks(ranks[..n]), ranks[n]);
      assert ranks == ranks[..n] + [ranks[n]];
      assert SortRanks(ranks) == InsertRank(SortRanks(ranks[..n]), ranks[n]);
      hide SortRanks, InsertRank, RanksAscend;
    }
  }

  lemma LastRankIsGreatest(ranks: seq<LegRank>, x: LegRank)
    requires RanksAscend(ranks) && x in multiset(ranks)
    ensures ranks != [] && !RankLess(ranks[|ranks| - 1], x)
  {
    assert x in ranks;
    var i :| 0 <= i < |ranks| && ranks[i] == x;
  }

  lemma DropLast<T>(s: seq<T>)
    requires s != []
    ensures multiset(s) == multiset(s[..|s| - 1]) + multiset{s[|s| - 1]}
  {
    assert s == s[..|s| - 1] + [s[|s| - 1]];
  }

  lemma WithoutLast<T>(a: seq<T>, b: seq<T>)
    requires a != [] && b != [] && multiset(a) == multiset(b) && a[|a| - 1] == b[|b| - 1]
    ensures multiset(a[..|a| - 1]) == multiset(b[..|b| - 1])
  {
    var x := a[|a| - 1];
    DropLast(a);
    DropLast(b);
    assert multiset(a[..|a| - 1]) == multiset(a) - multiset{x};
    assert multiset(b[..|b| - 1]) == multiset(b) - multiset{x};
  }

  lemma LastRanksAgree(a: seq<LegRank>, b: seq<LegRank>)
    requires RanksAscend(a) && RanksAscend(b) && multiset(a) == multiset(b) && a != []
    ensures b != [] && a[|a| - 1] == b[|b| - 1]
  {
    DropLast(a);
    LastRankIsGreatest(b, a[|a| - 1]);
    DropLast(b);
    LastRankIsGreatest(a, b[|b| - 1]);
  }

  lemma {:induction false} AscendingRanksAreUnique(a: seq<LegRank>, b: seq<LegRank>)
    requires RanksAscend(a) && RanksAscend(b) && multiset(a) == multiset(b)
    ensures a == b
  {
    if a == [] {
      assert |multiset(b)| == 0;
    } else {
      var m, n := |a| - 1, |b| - 1;
      LastRanksAgree(a, b);
      WithoutLast(a, b);
      AscendingRanksAreUnique(a[..m], b[..n]);
      assert a == a[..m] + [a[m]] && b == b[..n] + [b[n]];
    }
  }

  /** The score is a function of which (rank, weight) pairs there are, however the terms are added. */
  lemma ScoreIgnoresOrder<S>(setup: Setup<S>, a: seq<LegRank>, b: seq<LegRank>)
    requires multiset(a) == multiset(b)
    ensures RrfScore(setup, a) == RrfScore(setup, b)
  {
    SortingRanks(a);
    SortingRanks(b);
    AscendingRanksAreUnique(SortRanks(a), SortRanks(b));
  }

  // ----- Rows in leg order -----

  /** The queries that are not in the list, each once, as the rows first mention them. */
  function Unlisted(queries: seq<string>, rows: seq<Row>): seq<string> {
    if rows == [] then []
    else
      var earlier, query := Unlisted(queries, rows[..|rows| - 1]), rows[|rows| - 1].query;
      if query in queries || query in earlier then earlier else earlier + [query]
  }

  /** The listed queries in order, then the unlisted ones as first seen: a leg's number is its query's position. */
  function AllQueries(queries: seq<string>, rows: seq<Row>): seq<string> {
    queries + Unlisted(queries, rows)
  }

  function LegOf(queries: seq<string>, row: Row): Leg {
    Leg(Priority(row.provider), IndexOf(queries, row.query))
  }

  /** The rows of one leg, in the order they came. */
  function LegRows(queries: seq<string>, rows: seq<Row>, leg: Leg): seq<Row> {
    if rows == [] then []
    else
      var row := rows[|rows| - 1];
      LegRows(queries, rows[..|rows| - 1], leg) + if LegOf(queries, row) == leg then [row] else []
  }

  predicate LegsAscend(legs: seq<Leg>) {
    forall i, j :: 0 <= i < j < |legs| ==> LegLess(legs[i], legs[j])
  }

  function InsertLeg(legs: seq<Leg>, leg: Leg): seq<Leg> {
    if legs == [] || LegLess(leg, legs[0]) then [leg] + legs
    else if legs[0] == leg then legs
    else [legs[0]] + InsertLeg(legs[1..], leg)
  }

  /** The legs of the rows, in priority order and, within one provider, in query order. */
  function LegKeys(queries: seq<string>, rows: seq<Row>): seq<Leg> {
    if rows == [] then [] else InsertLeg(LegKeys(queries, rows[..|rows| - 1]), LegOf(queries, rows[|rows| - 1]))
  }

  lemma {:induction false} InsertingLeg(legs: seq<Leg>, leg: Leg)
    requires LegsAscend(legs)
    ensures LegsAscend(InsertLeg(legs, leg))
    ensures forall x :: x in InsertLeg(legs, leg) <==> x == leg || x in legs
  {
    if legs != [] && !LegLess(leg, legs[0]) && legs[0] != leg {
      InsertingLeg(legs[1..], leg);
      var rest := InsertLeg(legs[1..], leg);
      assert legs == [legs[0]] + legs[1..];
      forall i | 0 <= i < |rest|
        ensures LegLess(legs[0], rest[i])
      {
        assert rest[i] in rest;
        assert rest[i] == leg || rest[i] in legs[1..];
      }
    }
  }

  lemma {:induction false} LegKeysAreTheLegs(queries: seq<string>, rows: seq<Row>, leg: Leg)
    ensures LegsAscend(LegKeys(queries, rows))
    ensures leg in LegKeys(queries, rows) <==> LegRows(queries, rows, leg) != []
  {
    hide LegOf;
    if rows != [] {
      var n := |rows| - 1;
      LegKeysAreTheLegs(queries, rows[..n], leg);
      InsertingLeg(LegKeys(queries, rows[..n]), LegOf(queries, rows[n]));
    }
  }

  lemma SomeLegToo(a: seq<Leg>, b: seq<Leg>)
    requires b != [] && forall leg :: leg in a <==> leg in b
    ensures a != []
  {
    assert b[0] in b;
  }

  lemma FirstLegIsAlone(legs: seq<Leg>)
    requires LegsAscend(legs) && legs != []
    ensures legs[0] !in legs[1..]
    ensures forall leg :: leg in legs <==> leg == legs[0] || leg in legs[1..]
  {
    assert legs == [legs[0]] + legs[1..];
    assert forall i :: 0 <= i < |legs| - 1 ==> legs[1..][i] == legs[i + 1];
  }

  /** Two ascending lists of the same legs are one list: sorting leaves nothing to the hash map's order. */
  lemma {:induction false} AscendingLegsAreUnique(a: seq<Leg>, b: seq<Leg>)
    requires LegsAscend(a) && LegsAscend(b) && forall leg :: leg in a <==> leg in b
    ensures a == b
  {
    if b != [] {
      SomeLegToo(a, b);
    }
    if a != [] {
      SomeLegToo(b, a);
      assert a[0] in b && b[0] in a;
      assert a[0] == b[0];
      FirstLegIsAlone(a);
      FirstLegIsAlone(b);
      forall leg
        ensures leg in a[1..] <==> leg in b[1..]
      {
        assert leg in a[1..] <==> leg in a && leg != a[0];
        assert leg in b[1..] <==> leg in b && leg != b[0];
      }
      AscendingLegsAreUnique(a[1..], b[1..]);
      assert a == [a[0]] + a[1..] && b == [b[0]] + b[1..];
    }
  }

  datatype LegRow = LegRow(leg: Leg, row: Row)

  function InLeg(leg: Leg, rows: seq<Row>): seq<LegRow> {
    if rows == [] then [] else InLeg(leg, rows[..|rows| - 1]) + [LegRow(leg, rows[|rows| - 1])]
  }

  /** The rows of the given legs, leg after leg. */
  function PlacedFor(queries: seq<string>, rows: seq<Row>, legs: seq<Leg>): seq<LegRow> {
    if legs == [] then []
    else
      var leg := legs[|legs| - 1];
      PlacedFor(queries, rows, legs[..|legs| - 1]) + InLeg(leg, LegRows(queries, rows, leg))
  }

  /** All rows in the order they are folded. */
  function InLegOrder(queries: seq<string>, rows: seq<Row>): seq<LegRow> {
    var all := AllQueries(queries, rows);
    PlacedFor(all, rows, LegKeys(all, rows))
  }

  // ----- Groups -----

  /** The length of a text in UTF-8. */
  function ByteLen(text: string): nat {
    if text == "" then 0
    else
      var code := text[0] as int;
      (if code < 0x80 then 1 else if code < 0x800 then 2 else if code < 0x1_0000 then 3 else 4) + ByteLen(text[1..])
  }

  function AddProvider(providers: seq<Provider>, provider: Provider): seq<Provider> {
    if provider in providers then providers else InsertProvider(providers, provider)
  }

  function InsertProvider(sorted: seq<Provider>, provider: Provider): seq<Provider> {
    if sorted == [] || Priority(provider) < Priority(sorted[0]) then [provider] + sorted
    else [sorted[0]] + InsertProvider(sorted[1..], provider)
  }

  function AddQuery(queries: seq<string>, query: string): seq<string> {
    if query in queries then queries else InsertQuery(queries, query)
  }

  function InsertQuery(sorted: seq<string>, query: string): seq<string> {
    if sorted == [] || TextLess(query, sorted[0]) then [query] + sorted
    else [sorted[0]] + InsertQuery(sorted[1..], query)
  }

  function NewGroup(key: string, placed: LegRow): Group {
    var row := placed.row;
    Group(
      Merged(row.title, key, row.url, row.snippet, [row.provider], [row.query], row.rank, 1, row.date),
      [LegRank(row.rank, LegWeight(row.provider))], placed.leg)
  }

  function RanksWith(group: Group, placed: LegRow): seq<LegRank> {
    var ranks, row := group.legRanks, placed.row;
    if group.lastLeg != placed.leg then ranks + [LegRank(row.rank, LegWeight(row.provider))]
    else if ranks == [] then ranks
    else
      var last := ranks[|ranks| - 1];
      ranks[..|ranks| - 1] + [last.(rank := Min(last.rank, row.rank))]
  }

  function MergedWith(merged: Merged, row: Row): Merged {
    var better := row.rank < merged.bestRank;
    var longer := row.snippet != "" && ByteLen(row.snippet) > ByteLen(merged.snippet);
    Merged(
      if better then row.title else merged.title,
      merged.canonicalUrl,
      if better then row.url else merged.displayUrl,
      if longer then row.snippet else merged.snippet,
      AddProvider(merged.providers, row.provider),
      AddQuery(merged.queries, row.query),
      if better then row.rank else merged.bestRank,
      merged.hitCount + 1,
      if merged.date.None? then row.date else merged.date)
  }

  function GroupWith(group: Group, placed: LegRow): Group {
    Group(MergedWith(group.merged, placed.row), RanksWith(group, placed), placed.leg)
  }

  /** The group of one key's rows. */
  function GroupOf(key: string, placed: seq<LegRow>): Group
    requires placed != []
  {
    if |placed| == 1 then NewGroup(key, placed[0])
    else GroupWith(GroupOf(key, placed[..|placed| - 1]), placed[|placed| - 1])
  }

  /** The rows whose URL has the given key. */
  function RowsFor(dedupKey: string -> string, placed: seq<LegRow>, key: string): seq<LegRow> {
    if placed == [] then []
    else
      var last := placed[|placed| - 1];
      RowsFor(dedupKey, placed[..|placed| - 1], key) + if dedupKey(last.row.url) == key then [last] else []
  }

  /** Whether some row has this key and the key is not blank. */
  predicate IsKey(dedupKey: string -> string, placed: seq<LegRow>, key: string) {
    !IsBlank(key) && RowsFor(dedupKey, placed, key) != []
  }

  function EntryFor<S>(setup: Setup<S>, placed: seq<LegRow>, key: string): Scored<S>
    requires IsKey(setup.dedupKey, placed, key)
  {
    var group := GroupOf(key, RowsFor(setup.dedupKey, placed, key));
    Scored(group.merged, setup.times(RrfScore(setup, group.legRanks), setup.factor(group.merged)))
  }

  predicate Ordered<S(==)>(setup: Setup<S>, out: seq<Scored<S>>) {
    forall i, j :: 0 <= i < j < |out| ==> Before(setup, out[i], out[j])
  }

  /** What a merge returns: one entry for each key, strictly in the final order. */
  ghost predicate IsFusion<S>(setup: Setup<S>, queries: seq<string>, rows: seq<Row>, out: seq<Scored<S>>) {
    var placed := InLegOrder(queries, rows);
    && Ordered(setup, out)
    && (forall i :: 0 <= i < |out| ==>
          IsKey(setup.dedupKey, placed, out[i].merged.canonicalUrl)
          && out[i] == EntryFor(setup, placed, out[i].merged.canonicalUrl))
    && (forall key :: IsKey(setup.dedupKey, placed, key) ==> EntryFor(setup, placed, key) in out)
  }

  // ----- The merge -----

  lemma {:induction false} UnlistedGrows(queries: seq<string>, rows: seq<Row>, i: nat)
    requires i <= |rows|
    ensures Unlisted(queries, rows[..i]) <= Unlisted(queries, rows)
    decreases |rows|
  {
    if i == |rows| {
      assert rows[..i] == rows;
    } else {
      UnlistedGrows(queries, rows[..|rows| - 1], i);
      assert rows[..|rows| - 1][..i] == rows[..i];
    }
  }

  /** A query's number does not depend on the rows after the one that first mentions it. */
  lemma QueryNumbersStay(queries: seq<string>, unlisted: seq<string>, later: seq<string>, query: string)
    requires query in queries || query in unlisted
    ensures IndexOf(queries + (unlisted + later), query)
         == if query in queries then IndexOf(queries, query) else |queries| + IndexOf(unlisted, query)
  {
    IndexOfIsFirst(queries, query);
    IndexOfIsFirst(unlisted, query);
    IndexOfAppend(queries, unlisted + later, query);
    IndexOfAppend(unlisted, later, query);
    hide IndexOf;
  }

  lemma {:induction false} MentionedAreNumbered(queries: seq<string>, rows: seq<Row>, i: nat)
    requires i < |rows|
    ensures rows[i].query in queries || rows[i].query in Unlisted(queries, rows)
  {
    if i < |rows| - 1 {
      MentionedAreNumbered(queries, rows[..|rows| - 1], i);
    }
  }

  lemma UnlistedSnoc(queries: seq<string>, rows: seq<Row>, i: nat)
    requires i < |rows|
    ensures var earlier, query := Unlisted(queries, rows[..i]), rows[i].query;
            Unlisted(queries, rows[..i + 1])
            == if query in queries || query in earlier then earlier else earlier + [query]
  {
    assert rows[..i + 1][..i] == rows[..i];
  }

  ghost predicate NumbersTell(queries: seq<string>, unlisted: seq<string>, numbers: map<string, nat>) {
    && (forall query :: query in numbers <==> query in unlisted)
    && (forall query :: query in numbers ==> numbers[query] == |queries| + IndexOf(unlisted, query))
  }

  /** The number of one row's query: its place in the list, or the next free number on first sight. */
  method NumberOf(
    queries: seq<string>, query: string, numbers: map<string, nat>, next: nat, ghost unlisted: seq<string>)
    returns (number: nat, grown: map<string, nat>, free: nat, ghost seen: seq<string>)
    requires NumbersTell(queries, unlisted, numbers) && next == |queries| + |unlisted|
    ensures seen == if query in queries || query in unlisted then unlisted else unlisted + [query]
    ensures NumbersTell(queries, seen, grown) && free == |queries| + |seen|
    ensures number == if query in queries then IndexOf(queries, query) else |queries| + IndexOf(seen, query)
  {
    grown, free, seen := numbers, next, unlisted;
    IndexOfIsFirst(queries, query);
    if query in queries {
      number := IndexOf(queries, query);
    } else {
      if query !in numbers {
        seen := unlisted + [query];
        forall other
          ensures IndexOf(seen, other) ==
                    if other in unlisted then IndexOf(unlisted, other) else |unlisted| + IndexOf([query], other)
        {
          IndexOfIsFirst(unlisted, other);
          IndexOfAppend(unlisted, [query], other);
        }
        assert IndexOf([query], query) == 0;
        grown, free := numbers[query := next], next + 1;
      }
      number := grown[query];
    }
  }

  predicate LegTells(all: seq<string>, rows: seq<Row>, legs: map<Leg, seq<Row>>, leg: Leg) {
    && (leg in legs <==> LegRows(all, rows, leg) != [])
    && (leg in legs ==> legs[leg] == LegRows(all, rows, leg))
  }

  ghost predicate LegsTell(all: seq<string>, rows: seq<Row>, legs: map<Leg, seq<Row>>) {
    forall leg :: LegTells(all, rows, legs, leg)
  }

  lemma LegRowsSnoc(all: seq<string>, rows: seq<Row>, row: Row, leg: Leg)
    ensures LegRows(all, rows + [row], leg) == LegRows(all, rows, leg) + if LegOf(all, row) == leg then [row] else []
  {
    assert (rows + [row])[..|rows|] == rows;
  }

  method AddRow(ghost all: seq<string>, legs: map<Leg, seq<Row>>, leg: Leg, row: Row, ghost rows: seq<Row>)
    returns (grown: map<Leg, seq<Row>>)
    requires LegsTell(all, rows, legs) && leg == LegOf(all, row)
    ensures LegsTell(all, rows + [row], grown)
  {
    hide LegRows, LegOf;
    grown := legs[leg := (if leg in legs then legs[leg] else []) + [row]];
    forall other
      ensures LegTells(all, rows + [row], grown, other)
    {
      assert LegTells(all, rows, legs, other);
      LegRowsSnoc(all, rows, row, other);
    }
  }

  method SplitLegs(queries: seq<string>, results: seq<Row>) returns (legs: map<Leg, seq<Row>>)
    ensures LegsTell(AllQueries(queries, results), results, legs)
  {
    hide *;
    NothingSplit(queries, AllQueries(queries, results));
    legs := map[];
    var numbers: map<string, nat>, next := map[], |queries|;
    ghost var unlisted: seq<string> := [];
    assert results[..0] == [];
    for i := 0 to |results|
      invariant LegsTell(AllQueries(queries, results), results[..i], legs)
      invariant unlisted == Unlisted(queries, results[..i])
      invariant NumbersTell(queries, unlisted, numbers) && next == |queries| + |unlisted|
    {
      var row, number := results[i], 0;
      UnlistedSnoc(queries, results, i);
      number, numbers, next, unlisted := NumberOf(queries, row.query, numbers, next, unlisted);
      LegNumber(queries, results, i);
      legs := AddRow(AllQueries(queries, results), legs, Leg(Priority(row.provider), number), row, results[..i]);
      assert results[..i + 1] == results[..i] + [row];
    }
    assert results[..|results|] == results;
  }

  lemma NothingSplit(queries: seq<string>, all: seq<string>)
    ensures LegsTell(all, [], map[]) && Unlisted(queries, []) == [] && NumbersTell(queries, [], map[])
  {
  }

  /** A row's leg is known as soon as the row is seen. */
  lemma LegNumber(queries: seq<string>, rows: seq<Row>, i: nat)
    requires i < |rows|
    ensures var query, seen := rows[i].query, Unlisted(queries, rows[..i + 1]);
            LegOf(AllQueries(queries, rows), rows[i])
            == Leg(Priority(rows[i].provider),
                 if query in queries then IndexOf(queries, query) else |queries| + IndexOf(seen, query))
  {
    hide Unlisted, IndexOf;
    var seen := Unlisted(queries, rows[..i + 1]);
    UnlistedGrows(queries, rows, i + 1);
    var later := Unlisted(queries, rows)[|seen|..];
    assert Unlisted(queries, rows) == seen + later;
    assert rows[..i + 1][i] == rows[i];
    MentionedAreNumbered(queries, rows[..i + 1], i);
    QueryNumbersStay(queries, seen, later, rows[i].query);
  }

  /** The keys of the map, taken in any order, sorted. */
  method SortLegs(keys: set<Leg>) returns (sorted: seq<Leg>)
    ensures LegsAscend(sorted) && forall leg :: leg in sorted <==> leg in keys
  {
    sorted := [];
    var left := keys;
    while left != {}
      invariant LegsAscend(sorted) && left <= keys
      invariant forall leg :: leg in sorted <==> leg in keys && leg !in left
      decreases |left|
    {
      var leg :| leg in left;
      InsertingLeg(sorted, leg);
      sorted, left := InsertLeg(sorted, leg), left - {leg};
    }
  }

  predicate GroupTells(dedupKey: string -> string, placed: seq<LegRow>, groups: map<string, Group>, key: string) {
    && (key in groups <==> IsKey(dedupKey, placed, key))
    && (key in groups ==> groups[key] == GroupOf(key, RowsFor(dedupKey, placed, key)))
  }

  ghost predicate GroupsTell(dedupKey: string -> string, placed: seq<LegRow>, groups: map<string, Group>) {
    forall key :: GroupTells(dedupKey, placed, groups, key)
  }

  lemma RowsForSnoc(dedupKey: string -> string, placed: seq<LegRow>, last: LegRow, key: string)
    ensures RowsFor(dedupKey, placed + [last], key)
         == RowsFor(dedupKey, placed, key) + if dedupKey(last.row.url) == key then [last] else []
  {
    assert (placed + [last])[..|placed|] == placed;
  }

  lemma GroupOfSnoc(key: string, placed: seq<LegRow>, last: LegRow)
    ensures GroupOf(key, placed + [last]) ==
              if placed == [] then NewGroup(key, last) else GroupWith(GroupOf(key, placed), last)
  {
    assert (placed + [last])[..|placed|] == placed;
  }

  /** One row of a group already there: the branches of the fold. */
  method FoldRow(group: Group, leg: Leg, row: Row) returns (folded: Group)
    ensures folded == GroupWith(group, LegRow(leg, row))
  {
    hide ByteLen, InsertProvider, InsertQuery;
    var ranks, merged := group.legRanks, group.merged;
    if group.lastLeg == leg {
      if ranks != [] {
        var best := ranks[|ranks| - 1];
        ranks := ranks[..|ranks| - 1] + [best.(rank := Min(best.rank, row.rank))];
      }
    } else {
      ranks := ranks + [LegRank(row.rank, LegWeight(row.provider))];
    }
    if row.provider !in merged.providers {
      merged := merged.(providers := InsertProvider(merged.providers, row.provider));
    }
    if row.query !in merged.queries {
      merged := merged.(queries := InsertQuery(merged.queries, row.query));
    }
    if row.rank < merged.bestRank {
      merged := merged.(bestRank := row.rank, title := row.title, displayUrl := row.url);
    }
    if row.snippet != "" && ByteLen(row.snippet) > ByteLen(merged.snippet) {
      merged := merged.(snippet := row.snippet);
    }
    if merged.date.None? {
      merged := merged.(date := row.date);
    }
    merged := merged.(hitCount := merged.hitCount + 1);
    folded := Group(merged, ranks, leg);
  }

  method AddToGroups(
    dedupKey: string -> string, groups: map<string, Group>, leg: Leg, row: Row, ghost placed: seq<LegRow>)
    returns (grown: map<string, Group>)
    requires GroupsTell(dedupKey, placed, groups)
    ensures GroupsTell(dedupKey, placed + [LegRow(leg, row)], grown)
  {
    hide RowsFor, GroupOf, NewGroup, GroupWith, IsBlank;
    var last, key := LegRow(leg, row), dedupKey(row.url);
    assert GroupTells(dedupKey, placed, groups, key);
    if IsBlank(key) {
      grown := groups;
    } else if key !in groups {
      grown := groups[key := NewGroup(key, last)];
    } else {
      var folded := FoldRow(groups[key], leg, row);
      grown := groups[key := folded];
    }
    forall other
      ensures GroupTells(dedupKey, placed + [last], grown, other)
    {
      assert GroupTells(dedupKey, placed, groups, other);
      assert RowsFor(dedupKey, placed, other) + [] == RowsFor(dedupKey, placed, other);
      RowsForSnoc(dedupKey, placed, last, other);
      GroupOfSnoc(other, RowsFor(dedupKey, placed, other), last);
    }
  }

  /** Every row, leg by leg, into its group. */
  method FoldLegs(
    dedupKey: string -> string, ghost all: seq<string>, ghost rows: seq<Row>, legs: map<Leg, seq<Row>>, keys: seq<Leg>)
    returns (groups: map<string, Group>)
    requires LegsTell(all, rows, legs) && forall leg :: leg in keys ==> leg in legs
    ensures GroupsTell(dedupKey, PlacedFor(all, rows, keys), groups)
  {
    assert keys[..0] == [];
    NoGroups(dedupKey, all, rows);
    hide *;
    groups := map[];
    for k := 0 to |keys|
      invariant GroupsTell(dedupKey, PlacedFor(all, rows, keys[..k]), groups)
    {
      var leg := keys[k];
      LegIs(all, rows, legs, leg);
      var own := legs[leg];
      ghost var before := PlacedFor(all, rows, keys[..k]);
      NonePlaced(leg);
      assert own[..0] == [] && before + [] == before;
      for j := 0 to |own|
        invariant GroupsTell(dedupKey, before + InLeg(leg, own[..j]), groups)
      {
        PlaceSnoc(leg, own, j);
        ConcatAssociates(before, InLeg(leg, own[..j]), [LegRow(leg, own[j])]);
        groups := AddToGroups(dedupKey, groups, leg, own[j], before + InLeg(leg, own[..j]));
      }
      assert own[..|own|] == own;
      PlacedForSnoc(all, rows, keys, k);
    }
    assert keys[..|keys|] == keys;
  }

  lemma NoGroups(dedupKey: string -> string, all: seq<string>, rows: seq<Row>)
    ensures PlacedFor(all, rows, []) == [] && GroupsTell(dedupKey, [], map[])
  {
  }

  lemma NonePlaced(leg: Leg)
    ensures InLeg(leg, []) == []
  {
  }

  lemma LegIs(all: seq<string>, rows: seq<Row>, legs: map<Leg, seq<Row>>, leg: Leg)
    requires LegsTell(all, rows, legs)
    ensures leg in legs <==> LegRows(all, rows, leg) != []
    ensures leg in legs ==> legs[leg] == LegRows(all, rows, leg)
  {
    assert LegTells(all, rows, legs, leg);
  }

  lemma PlaceSnoc(leg: Leg, rows: seq<Row>, j: nat)
    requires j < |rows|
    ensures InLeg(leg, rows[..j + 1]) == InLeg(leg, rows[..j]) + [LegRow(leg, rows[j])]
  {
    assert rows[..j + 1][..j] == rows[..j];
  }

  lemma PlacedForSnoc(all: seq<string>, rows: seq<Row>, keys: seq<Leg>, k: nat)
    requires k < |keys|
    ensures PlacedFor(all, rows, keys[..k + 1])
         == PlacedFor(all, rows, keys[..k]) + InLeg(keys[k], LegRows(all, rows, keys[k]))
  {
    assert keys[..k + 1][..k] == keys[..k];
  }

  // ----- Entries -----

  /** A group's display URL has the group's own key, so no two groups share one. */
  lemma {:induction false} DisplayUrlKeepsKey(dedupKey: string -> string, placed: seq<LegRow>, key: string)
    requires RowsFor(dedupKey, placed, key) != []
    ensures var merged := GroupOf(key, RowsFor(dedupKey, placed, key)).merged;
            merged.canonicalUrl == key && dedupKey(merged.displayUrl) == key
  {
    hide ByteLen, AddProvider, AddQuery, RanksWith;
    var n := |placed| - 1;
    var earlier := RowsFor(dedupKey, placed[..n], key);
    if dedupKey(placed[n].row.url) == key {
      GroupOfSnoc(key, earlier, placed[n]);
    } else {
      assert earlier + [] == earlier;
    }
    if earlier != [] {
      DisplayUrlKeepsKey(dedupKey, placed[..n], key);
    }
  }

  lemma EntryKeepsKey<S>(setup: Setup<S>, placed: seq<LegRow>, key: string)
    requires IsKey(setup.dedupKey, placed, key)
    ensures var merged := EntryFor(setup, placed, key).merged;
            merged.canonicalUrl == key && setup.dedupKey(merged.displayUrl) == key
  {
    DisplayUrlKeepsKey(setup.dedupKey, placed, key);
    hide GroupOf, RowsFor, RrfScore;
  }

  /** Puts an entry after all that come before it; nothing else moves. */
  method InsertEntry<S(==, !new)>(setup: Setup<S>, sorted: seq<Scored<S>>, x: Scored<S>) returns (out: seq<Scored<S>>)
    requires IsTotal(setup) && Ordered(setup, sorted)
    requires forall i :: 0 <= i < |sorted| ==> sorted[i].merged.displayUrl != x.merged.displayUrl
    ensures Ordered(setup, out)
    ensures forall y :: y in out <==> y == x || y in sorted
  {
    hide Before;
    var i := 0;
    while i < |sorted| && Before(setup, sorted[i], x)
      invariant 0 <= i <= |sorted|
      invariant forall j :: 0 <= j < i ==> Before(setup, sorted[j], x)
    {
      i := i + 1;
    }
    out := sorted[..i] + [x] + sorted[i..];
    assert sorted == sorted[..i] + sorted[i..];
    FollowsFrom(setup, sorted, x, i);
    PlacedInOrder(setup, sorted, x, i);
  }

  lemma FollowsFrom<S(!new)>(setup: Setup<S>, sorted: seq<Scored<S>>, x: Scored<S>, i: nat)
    requires IsTotal(setup) && Ordered(setup, sorted) && i <= |sorted|
    requires i < |sorted| ==> !Before(setup, sorted[i], x) && sorted[i].merged.displayUrl != x.merged.displayUrl
    ensures forall j :: i <= j < |sorted| ==> Before(setup, x, sorted[j])
  {
    hide Before, IsTotal;
    if i < |sorted| {
      BeforeIsStrict(setup, sorted[i], x);
      forall j | i < j < |sorted|
        ensures Before(setup, x, sorted[j])
      {
        BeforeIsTransitive(setup, x, sorted[i], sorted[j]);
      }
    }
  }

  lemma PlacedInOrder<S(!new)>(setup: Setup<S>, sorted: seq<Scored<S>>, x: Scored<S>, i: nat)
    requires Ordered(setup, sorted) && i <= |sorted|
    requires forall j :: 0 <= j < i ==> Before(setup, sorted[j], x)
    requires forall j :: i <= j < |sorted| ==> Before(setup, x, sorted[j])
    ensures Ordered(setup, sorted[..i] + [x] + sorted[i..])
  {
    hide Before;
    var out := sorted[..i] + [x] + sorted[i..];
    forall j, k | 0 <= j < k < |out|
      ensures Before(setup, out[j], out[k])
    {
      assert out[j] == if j < i then sorted[j] else if j == i then x else sorted[j - 1];
      assert out[k] == if k < i then sorted[k] else if k == i then x else sorted[k - 1];
    }
  }

  method Score<S>(setup: Setup<S>, ranks: seq<LegRank>) returns (score: S)
    ensures score == RrfScore(setup, ranks)
  {
    hide InsertRank;
    var sorted: seq<LegRank> := [];
    for i := 0 to |ranks|
      invariant sorted == SortRanks(ranks[..i])
    {
      assert ranks[..i + 1][..i] == ranks[..i];
      sorted := InsertRank(sorted, ranks[i]);
    }
    assert ranks[..|ranks|] == ranks;
    score := setup.zero;
    for i := 0 to |sorted|
      invariant score == SumUp(setup, sorted[..i])
    {
      assert sorted[..i + 1][..i] == sorted[..i];
      score := setup.add(score, setup.term(sorted[i]));
    }
    assert sorted[..|sorted|] == sorted;
  }

  /** The entries of the keys done so far, in the final order. */
  ghost predicate Holds<S>(setup: Setup<S>, placed: seq<LegRow>, out: seq<Scored<S>>, done: set<string>) {
    && Ordered(setup, out)
    && (forall i :: 0 <= i < |out| ==> IsEntry(setup, placed, out[i]) && out[i].merged.canonicalUrl in done)
    && (forall key :: key in done ==> IsKey(setup.dedupKey, placed, key) && EntryFor(setup, placed, key) in out)
  }

  ghost predicate IsEntry<S>(setup: Setup<S>, placed: seq<LegRow>, entry: Scored<S>) {
    && IsKey(setup.dedupKey, placed, entry.merged.canonicalUrl)
    && entry == EntryFor(setup, placed, entry.merged.canonicalUrl)
  }

  lemma OtherUrls<S>(setup: Setup<S>, placed: seq<LegRow>, out: seq<Scored<S>>, done: set<string>, key: string)
    requires Holds(setup, placed, out, done) && key !in done && IsKey(setup.dedupKey, placed, key)
    ensures forall i :: 0 <= i < |out| ==>
              out[i].merged.displayUrl != EntryFor(setup, placed, key).merged.displayUrl
  {
    EntryKeepsKey(setup, placed, key);
    forall i | 0 <= i < |out|
      ensures out[i].merged.displayUrl != EntryFor(setup, placed, key).merged.displayUrl
    {
      assert IsEntry(setup, placed, out[i]);
      EntryKeepsKey(setup, placed, out[i].merged.canonicalUrl);
      hide EntryFor, IsKey;
    }
  }

  lemma OneMoreHolds<S>(
    setup: Setup<S>, placed: seq<LegRow>, out: seq<Scored<S>>, done: set<string>, key: string, grown: seq<Scored<S>>)
    requires Holds(setup, placed, out, done) && IsKey(setup.dedupKey, placed, key)
    requires Ordered(setup, grown)
    requires forall y :: y in grown <==> y == EntryFor(setup, placed, key) || y in out
    ensures Holds(setup, placed, grown, done + {key})
  {
    EntryKeepsKey(setup, placed, key);
    hide EntryFor, IsKey, Ordered;
    var mine := EntryFor(setup, placed, key);
    forall i | 0 <= i < |grown|
      ensures IsEntry(setup, placed, grown[i]) && grown[i].merged.canonicalUrl in done + {key}
    {
      assert grown[i] in grown;
      if grown[i] != mine {
        assert grown[i] in out;
        var j :| 0 <= j < |out| && out[j] == grown[i];
      }
    }
  }

  /** One group scored and put in its place. */
  method RankGroup<S(==, !new)>(
    setup: Setup<S>, group: Group, out: seq<Scored<S>>, ghost placed: seq<LegRow>,
    ghost done: set<string>, ghost key: string)
    returns (grown: seq<Scored<S>>)
    requires IsTotal(setup) && Holds(setup, placed, out, done) && key !in done
    requires IsKey(setup.dedupKey, placed, key) && group == GroupOf(key, RowsFor(setup.dedupKey, placed, key))
    ensures Holds(setup, placed, grown, done + {key})
  {
    hide *;
    var rrf := Score(setup, group.legRanks);
    var entry := Scored(group.merged, setup.times(rrf, setup.factor(group.merged)));
    EntryIs(setup, placed, key, entry);
    OtherUrls(setup, placed, out, done, key);
    HoldsInOrder(setup, placed, out, done);
    grown := InsertEntry(setup, out, entry);
    OneMoreHolds(setup, placed, out, done, key, grown);
  }

  lemma NothingHolds<S>(setup: Setup<S>, placed: seq<LegRow>)
    ensures Holds(setup, placed, [], {})
  {
  }

  /** The groups scored, in whatever order the map gives them, and sorted. */
  method RankGroups<S(==, !new)>(setup: Setup<S>, groups: map<string, Group>, ghost placed: seq<LegRow>)
    returns (out: seq<Scored<S>>)
    requires IsTotal(setup) && GroupsTell(setup.dedupKey, placed, groups)
    ensures Holds(setup, placed, out, groups.Keys)
  {
    hide *;
    out := [];
    var left := groups.Keys;
    ghost var done: set<string> := {};
    NothingHolds(setup, placed);
    while left != {}
      invariant done !! left && done + left == groups.Keys && Holds(setup, placed, out, done)
      decreases |left|
    {
      var key :| key in left;
      GroupIs(setup.dedupKey, placed, groups, key);
      out := RankGroup(setup, groups[key], out, placed, done, key);
      done, left := done + {key}, left - {key};
    }
    assert done == groups.Keys;
  }

  lemma EntryIs<S>(setup: Setup<S>, placed: seq<LegRow>, key: string, entry: Scored<S>)
    requires IsKey(setup.dedupKey, placed, key)
    requires var group := GroupOf(key, RowsFor(setup.dedupKey, placed, key));
             entry == Scored(group.merged, setup.times(RrfScore(setup, group.legRanks), setup.factor(group.merged)))
    ensures entry == EntryFor(setup, placed, key)
  {
    hide GroupOf, RowsFor, RrfScore;
  }

  lemma HoldsInOrder<S>(setup: Setup<S>, placed: seq<LegRow>, out: seq<Scored<S>>, done: set<string>)
    requires Holds(setup, placed, out, done)
    ensures Ordered(setup, out)
  {
  }

  lemma GroupIs(dedupKey: string -> string, placed: seq<LegRow>, groups: map<string, Group>, key: string)
    requires GroupsTell(dedupKey, placed, groups)
    ensures key in groups <==> IsKey(dedupKey, placed, key)
    ensures key in groups ==> groups[key] == GroupOf(key, RowsFor(dedupKey, placed, key))
  {
    assert GroupTells(dedupKey, placed, groups, key);
  }

  method MergeScored<S(==, !new)>(setup: Setup<S>, results: seq<Row>, queries: seq<string>)
    returns (out: seq<Scored<S>>)
    requires IsTotal(setup)
    ensures IsFusion(setup, queries, results, out)
  {
    hide *;
    var legs := SplitLegs(queries, results);
    ghost var all := AllQueries(queries, results);
    var keys := SortLegs(legs.Keys);
    SortedAreTheKeys(all, results, legs, keys);
    var groups := FoldLegs(setup.dedupKey, all, results, legs, keys);
    out := RankGroups(setup, groups, PlacedFor(all, results, keys));
    HoldsIsFusion(setup, queries, results, groups, out);
  }

  lemma SortedAreTheKeys(all: seq<string>, rows: seq<Row>, legs: map<Leg, seq<Row>>, keys: seq<Leg>)
    requires LegsTell(all, rows, legs) && LegsAscend(keys) && forall leg :: leg in keys <==> leg in legs
    ensures keys == LegKeys(all, rows)
  {
    hide LegsTell, LegsAscend, LegRows, LegKeys;
    LegKeysAreTheLegs(all, rows, Leg(0, 0));
    forall leg
      ensures leg in keys <==> leg in LegKeys(all, rows)
    {
      LegIs(all, rows, legs, leg);
      LegKeysAreTheLegs(all, rows, leg);
    }
    AscendingLegsAreUnique(keys, LegKeys(all, rows));
  }

  lemma HoldsIsFusion<S>(
    setup: Setup<S>, queries: seq<string>, rows: seq<Row>, groups: map<string, Group>, out: seq<Scored<S>>)
    requires var all := AllQueries(queries, rows);
             var placed := PlacedFor(all, rows, LegKeys(all, rows));
             GroupsTell(setup.dedupKey, placed, groups) && Holds(setup, placed, out, groups.Keys)
    ensures IsFusion(setup, queries, rows, out)
  {
    hide GroupsTell, IsKey, EntryFor, LegKeys, PlacedFor, AllQueries, Ordered;
    var placed := InLegOrder(queries, rows);
    forall i | 0 <= i < |out|
      ensures IsKey(setup.dedupKey, placed, out[i].merged.canonicalUrl)
              && out[i] == EntryFor(setup, placed, out[i].merged.canonicalUrl)
    {
      assert IsEntry(setup, placed, out[i]);
    }
    forall key | IsKey(setup.dedupKey, placed, key)
      ensures EntryFor(setup, placed, key) in out
    {
      GroupIs(setup.dedupKey, placed, groups, key);
    }
  }

  // ----- What a merge depends on -----

  /** The rows one provider returned for one query, in the order they came. */
  function OwnRows(rows: seq<Row>, provider: Provider, query: string): seq<Row> {
    if rows == [] then []
    else
      var row := rows[|rows| - 1];
      OwnRows(rows[..|rows| - 1], provider, query)
      + if row.provider == provider && row.query == query then [row] else []
  }

  ghost predicate SameLegs(a: seq<Row>, b: seq<Row>) {
    forall provider, query :: OwnRows(a, provider, query) == OwnRows(b, provider, query)
  }

  ghost predicate AllIn(rows: seq<Row>, all: seq<string>) {
    forall i :: 0 <= i < |rows| ==> rows[i].query in all
  }

  lemma LegTellsProviderAndQuery(all: seq<string>, row: Row, provider: Provider, query: string)
    requires row.query in all && query in all
    ensures LegOf(all, row) == Leg(Priority(provider), IndexOf(all, query)) <==>
            row.provider == provider && row.query == query
  {
    IndexOfIsFirst(all, row.query);
    IndexOfIsFirst(all, query);
    hide IndexOf;
  }

  lemma {:induction false} LegRowsAreOwn(all: seq<string>, rows: seq<Row>, provider: Provider, query: string)
    requires AllIn(rows, all) && query in all
    ensures LegRows(all, rows, Leg(Priority(provider), IndexOf(all, query))) == OwnRows(rows, provider, query)
  {
    hide IndexOf, LegOf;
    if rows != [] {
      var n := |rows| - 1;
      assert AllIn(rows[..n], all);
      LegRowsAreOwn(all, rows[..n], provider, query);
      LegTellsProviderAndQuery(all, rows[n], provider, query);
    }
  }

  lemma {:induction false} SomeRowOf(all: seq<string>, rows: seq<Row>, leg: Leg) returns (i: nat)
    requires LegRows(all, rows, leg) != []
    ensures i < |rows| && LegOf(all, rows[i]) == leg
  {
    i := |rows| - 1;
    if LegOf(all, rows[i]) != leg {
      i := SomeRowOf(all, rows[..i], leg);
    }
  }

  lemma SameLegRows(all: seq<string>, a: seq<Row>, b: seq<Row>, leg: Leg)
    requires SameLegs(a, b) && AllIn(a, all) && AllIn(b, all)
    ensures LegRows(all, a, leg) == LegRows(all, b, leg)
  {
    hide OwnRows, LegRows;
    if LegRows(all, a, leg) != [] {
      var i := SomeRowOf(all, a, leg);
      LegRowsAreOwn(all, a, a[i].provider, a[i].query);
      LegRowsAreOwn(all, b, a[i].provider, a[i].query);
    } else if LegRows(all, b, leg) != [] {
      var i := SomeRowOf(all, b, leg);
      LegRowsAreOwn(all, a, b[i].provider, b[i].query);
      LegRowsAreOwn(all, b, b[i].provider, b[i].query);
    }
  }

  lemma AllAreNumbered(queries: seq<string>, rows: seq<Row>)
    ensures AllIn(rows, AllQueries(queries, rows))
  {
    forall i | 0 <= i < |rows|
      ensures rows[i].query in AllQueries(queries, rows)
    {
      MentionedAreNumbered(queries, rows, i);
      hide Unlisted;
    }
  }

  lemma {:induction false} SamePlaces(all: seq<string>, a: seq<Row>, b: seq<Row>, legs: seq<Leg>)
    requires SameLegs(a, b) && AllIn(a, all) && AllIn(b, all)
    ensures PlacedFor(all, a, legs) == PlacedFor(all, b, legs)
  {
    hide SameLegs, AllIn, LegRows, InLeg;
    if legs != [] {
      var n := |legs| - 1;
      SamePlaces(all, a, b, legs[..n]);
      SameLegRows(all, a, b, legs[n]);
    }
  }

  /** The order of folding is the legs' own, whichever way the legs' rows came interleaved. */
  lemma LegOrderIgnoresInterleaving(queries: seq<string>, a: seq<Row>, b: seq<Row>)
    requires SameLegs(a, b) && Unlisted(queries, a) == Unlisted(queries, b)
    ensures InLegOrder(queries, a) == InLegOrder(queries, b)
  {
    hide SameLegs, AllIn, Unlisted, LegKeys, PlacedFor, LegRows, LegsAscend;
    var all := AllQueries(queries, a);
    assert all == AllQueries(queries, b);
    AllAreNumbered(queries, a);
    AllAreNumbered(queries, b);
    LegKeysAreTheLegs(all, a, Leg(0, 0));
    LegKeysAreTheLegs(all, b, Leg(0, 0));
    forall leg
      ensures leg in LegKeys(all, a) <==> leg in LegKeys(all, b)
    {
      SameLegRows(all, a, b, leg);
      LegKeysAreTheLegs(all, a, leg);
      LegKeysAreTheLegs(all, b, leg);
    }
    AscendingLegsAreUnique(LegKeys(all, a), LegKeys(all, b));
    SamePlaces(all, a, b, LegKeys(all, a));
  }

  lemma FirstComesFirst<S(!new)>(setup: Setup<S>, out: seq<Scored<S>>, y: Scored<S>)
    requires IsTotal(setup) && Ordered(setup, out) && y in out
    ensures !Before(setup, y, out[0])
  {
    var i :| 0 <= i < |out| && out[i] == y;
    BeforeIsStrict(setup, out[0], y);
    hide Before;
  }

  lemma FirstIsAlone<S(!new)>(setup: Setup<S>, out: seq<Scored<S>>)
    requires IsTotal(setup) && Ordered(setup, out) && out != []
    ensures out[0] !in out[1..] && Ordered(setup, out[1..])
    ensures forall y :: y in out[1..] <==> y in out && y != out[0]
  {
    assert out == [out[0]] + out[1..];
    forall i | 0 <= i < |out| - 1
      ensures out[1..][i] != out[0]
    {
      assert Before(setup, out[0], out[i + 1]);
      BeforeIsStrict(setup, out[0], out[i + 1]);
      hide Before;
    }
    hide Before;
  }

  /** Entries are told apart by their display URLs. */
  ghost predicate ToldApart<S>(out: seq<Scored<S>>) {
    forall x, y :: x in out && y in out && x != y ==> x.merged.displayUrl != y.merged.displayUrl
  }

  /** A strict order leaves one way to list the same entries. */
  lemma {:induction false} OrderIsUnique<S(!new)>(setup: Setup<S>, a: seq<Scored<S>>, b: seq<Scored<S>>)
    requires IsTotal(setup) && Ordered(setup, a) && Ordered(setup, b) && ToldApart(a)
    requires forall y :: y in a <==> y in b
    ensures a == b
  {
    hide IsTotal, Ordered, Before;
    if b != [] {
      assert b[0] in b;
      assert b[0] in a;
    }
    if a != [] {
      assert a[0] in a;
      FirstComesFirst(setup, b, a[0]);
      FirstComesFirst(setup, a, b[0]);
      BeforeIsStrict(setup, a[0], b[0]);
      assert a[0] == b[0];
      FirstIsAlone(setup, a);
      FirstIsAlone(setup, b);
      OrderIsUnique(setup, a[1..], b[1..]);
      assert a == [a[0]] + a[1..] && b == [b[0]] + b[1..];
    }
  }

  lemma FusionTellsApart<S>(setup: Setup<S>, queries: seq<string>, rows: seq<Row>, out: seq<Scored<S>>)
    requires IsFusion(setup, queries, rows, out)
    ensures ToldApart(out)
  {
    var placed := InLegOrder(queries, rows);
    hide EntryFor, IsKey, InLegOrder, Ordered;
    forall x, y | x in out && y in out && x != y
      ensures x.merged.displayUrl != y.merged.displayUrl
    {
      EntryKeepsKey(setup, placed, x.merged.canonicalUrl);
      EntryKeepsKey(setup, placed, y.merged.canonicalUrl);
    }
  }

  /** Two merges of the same placed rows hold the same entries. */
  lemma SameEntries<S>(
    setup: Setup<S>, queries: seq<string>, a: seq<Row>, b: seq<Row>,
    x: seq<Scored<S>>, y: seq<Scored<S>>, entry: Scored<S>)
    requires IsFusion(setup, queries, a, x) && IsFusion(setup, queries, b, y)
    requires InLegOrder(queries, a) == InLegOrder(queries, b) && entry in x
    ensures entry in y
  {
    hide EntryFor, IsKey, InLegOrder, Ordered;
    var i :| 0 <= i < |x| && x[i] == entry;
  }

  /**
   What a merge returns depends on each leg's own rows alone, given the order in which unlisted queries first
   appear: no interleaving of legs and no order of a hash map shows, whatever adding scores does.
   */
  lemma MergeIgnoresInterleaving<S(!new)>(
    setup: Setup<S>, queries: seq<string>, a: seq<Row>, b: seq<Row>, x: seq<Scored<S>>, y: seq<Scored<S>>)
    requires IsTotal(setup) && IsFusion(setup, queries, a, x) && IsFusion(setup, queries, b, y)
    requires SameLegs(a, b) && Unlisted(queries, a) == Unlisted(queries, b)
    ensures x == y
  {
    LegOrderIgnoresInterleaving(queries, a, b);
    FusionTellsApart(setup, queries, a, x);
    assert Ordered(setup, x) && Ordered(setup, y);
    hide *;
    forall entry
      ensures entry in x <==> entry in y
    {
      if entry in x {
        SameEntries(setup, queries, a, b, x, y, entry);
      }
      if entry in y {
        SameEntries(setup, queries, b, a, y, x, entry);
      }
    }
    OrderIsUnique(setup, x, y);
  }

  /** With every query listed nothing but the legs' own rows matters. */
  lemma {:induction false} ListedQueriesLeaveNothingOver(queries: seq<string>, rows: seq<Row>)
    requires AllIn(rows, queries)
    ensures Unlisted(queries, rows) == []
  {
    if rows != [] {
      var n := |rows| - 1;
      assert AllIn(rows[..n], queries);
      assert rows[n].query in queries;
      ListedQueriesLeaveNothingOver(queries, rows[..n]);
    }
  }

  lemma TwoNumbers(p: Row, q: Row)
    requires p.provider == q.provider && p.query != q.query
    ensures Unlisted([], [p, q]) == [p.query, q.query]
    ensures LegOf([p.query, q.query], p) == Leg(Priority(p.provider), 0)
    ensures LegOf([p.query, q.query], q) == Leg(Priority(p.provider), 1)
  {
    var rows, all := [p, q], [p.query, q.query];
    assert rows[..1] == [p] && [p][..0] == [];
    assert Unlisted([], []) == [] && Unlisted([], [p]) == [p.query];
    assert IndexOf(all, p.query) == 0 && all[1..] == [q.query] && IndexOf(all[1..], q.query) == 0;
  }

  lemma TwoLegs(all: seq<string>, p: Row, q: Row, one: Leg, two: Leg)
    requires LegOf(all, p) == one && LegOf(all, q) == two && LegLess(one, two)
    ensures LegKeys(all, [p, q]) == [one, two]
    ensures LegRows(all, [p, q], one) == [p] && LegRows(all, [p, q], two) == [q]
  {
    hide LegOf;
    var rows := [p, q];
    assert rows[..1] == [p] && [p][..0] == [];
    assert LegKeys(all, []) == [] && LegKeys(all, [p]) == InsertLeg([], one) == [one];
    assert [one][1..] == [] && InsertLeg([one], two) == [one] + InsertLeg([], two);
    assert LegRows(all, [], one) == LegRows(all, [], two) == [];
    assert LegRows(all, [p], one) == [p] && LegRows(all, [p], two) == [];
  }

  /** Two unlisted queries of one provider: their legs are numbered as they come. */
  lemma TwoUnlisted(p: Row, q: Row)
    requires p.provider == q.provider && p.query != q.query
    ensures Unlisted([], [p, q]) == [p.query, q.query]
    ensures InLegOrder([], [p, q])
         == [LegRow(Leg(Priority(p.provider), 0), p), LegRow(Leg(Priority(q.provider), 1), q)]
  {
    var rows, all := [p, q], [p.query, q.query];
    var one, two := Leg(Priority(p.provider), 0), Leg(Priority(q.provider), 1);
    TwoNumbers(p, q);
    assert AllQueries([], rows) == all;
    TwoLegs(all, p, q, one, two);
    hide IndexOf, Unlisted, LegOf, Priority, LegRows, LegKeys;
    var keys := [one, two];
    assert keys[..1] == [one] && [one][..0] == [];
    assert PlacedFor(all, rows, []) == [] && PlacedFor(all, rows, [one]) == [] + InLeg(one, [p]);
    assert [p][..0] == [] && [q][..0] == [] && InLeg(one, []) == [] && InLeg(two, []) == [];
    assert InLeg(one, [p]) == [LegRow(one, p)] && InLeg(two, [q]) == [LegRow(two, q)];
  }

  /**
   With unlisted queries the rows' own order does show: of two of them that found one page at the same rank, the
   first seen names it.
   */
  lemma UnlistedOrderShows<S>(setup: Setup<S>, p: Row, q: Row, key: string)
    requires p.provider == q.provider && p.query != q.query && p.rank == q.rank
    requires setup.dedupKey(p.url) == key && setup.dedupKey(q.url) == key && !IsBlank(key)
    ensures var placed := InLegOrder([], [p, q]);
            IsKey(setup.dedupKey, placed, key) && EntryFor(setup, placed, key).merged.title == p.title
  {
    TwoUnlisted(p, q);
    var a, b := LegRow(Leg(Priority(p.provider), 0), p), LegRow(Leg(Priority(q.provider), 1), q);
    hide InLegOrder, Unlisted, RrfScore, Priority, IsBlank, RowsFor, GroupOf;
    BothRows(setup.dedupKey, a, b, key);
    FirstOfTied(key, a, b);
    hide RanksWith;
  }

  lemma BothRows(dedupKey: string -> string, a: LegRow, b: LegRow, key: string)
    requires dedupKey(a.row.url) == key && dedupKey(b.row.url) == key
    ensures RowsFor(dedupKey, [a, b], key) == [a, b]
  {
    assert RowsFor(dedupKey, [], key) == [];
    hide RowsFor;
    assert [a, b] == [a] + [b] && [a] == [] + [a];
    RowsForSnoc(dedupKey, [], a, key);
    RowsForSnoc(dedupKey, [a], b, key);
  }

  /** Of two rows of the same rank the first names the hit. */
  lemma FirstOfTied(key: string, a: LegRow, b: LegRow)
    requires a.row.rank == b.row.rank
    ensures GroupOf(key, [a, b]).merged.title == a.row.title
  {
    assert GroupOf(key, [a]) == NewGroup(key, a) && [a, b] == [a] + [b];
    hide GroupOf, ByteLen, AddProvider, AddQuery, RanksWith;
    GroupOfSnoc(key, [a], b);
  }
}
