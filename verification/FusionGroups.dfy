/** What a merged hit says about the rows it was folded from (`src/web/search/dedup.rs`). */
module FusionGroups {
  import opened Prelude
  import opened Fusion

  // ----- One score term for each leg -----

  /** Legs never step back from one row to a later one, and each is its row's provider's. */
  predicate InOrder(placed: seq<LegRow>) {
    && (forall i, j :: 0 <= i < j < |placed| ==> !LegLess(placed[j].leg, placed[i].leg))
    && (forall i :: 0 <= i < |placed| ==> placed[i].leg.priority == Priority(placed[i].row.provider))
  }

  /** The legs of the rows, each once. */
  function Legs(placed: seq<LegRow>): seq<Leg> {
    if placed == [] then []
    else
      var earlier, leg := Legs(placed[..|placed| - 1]), placed[|placed| - 1].leg;
      if leg in earlier then earlier else earlier + [leg]
  }

  /** The best rank one leg gave. */
  function BestRank(placed: seq<LegRow>, leg: Leg): Option<nat> {
    if placed == [] then None
    else
      var earlier, last := BestRank(placed[..|placed| - 1], leg), placed[|placed| - 1];
      if last.leg != leg then earlier
      else if earlier.None? then Some(last.row.rank)
      else Some(Min(earlier.value, last.row.rank))
  }

  /** The weight of a leg, from its provider's priority alone. */
  function WeightOf(leg: Leg): nat {
    if leg.priority == Priority(CratesIo) then 2 else 1
  }

  lemma {:induction false} LegsAreTheirs(placed: seq<LegRow>, leg: Leg)
    ensures leg in Legs(placed) <==> exists i :: 0 <= i < |placed| && placed[i].leg == leg
    ensures leg in Legs(placed) <==> BestRank(placed, leg).Some?
  {
    if placed != [] {
      var n := |placed| - 1;
      LegsAreTheirs(placed[..n], leg);
      assert placed == placed[..n] + [placed[n]];
    }
  }

  /** A leg that does not step back from the last one comes after all of them, or is the last one. */
  lemma LegComesLast(legs: seq<Leg>, leg: Leg)
    requires LegsAscend(legs) && legs != [] && !LegLess(leg, legs[|legs| - 1])
    ensures leg in legs ==> leg == legs[|legs| - 1]
    ensures leg !in legs ==> LegsAscend(legs + [leg])
  {
    var n := |legs| - 1;
    assert forall i :: 0 <= i < n ==> LegLess(legs[i], legs[n]);
  }

  lemma {:induction false} LegsAscendInOrder(placed: seq<LegRow>)
    requires InOrder(placed)
    ensures LegsAscend(Legs(placed))
    ensures placed != [] ==> Legs(placed) != [] && Legs(placed)[|Legs(placed)| - 1] == placed[|placed| - 1].leg
  {
    if placed != [] {
      var n := |placed| - 1;
      InOrderSoFar(placed);
      LegsAscendInOrder(placed[..n]);
      if n > 0 {
        assert !LegLess(placed[n].leg, placed[n - 1].leg);
        hide InOrder, LegLess, LegsAscend;
        LegComesLast(Legs(placed[..n]), placed[n].leg);
      }
    }
  }

  /** The terms a group keeps, one for each of the legs given. */
  predicate TermsTell(ranks: seq<LegRank>, placed: seq<LegRow>, legs: seq<Leg>) {
    && |ranks| == |legs|
    && forall i :: 0 <= i < |legs| ==>
         BestRank(placed, legs[i]) == Some(ranks[i].rank) && ranks[i].weight == WeightOf(legs[i])
  }

  lemma BestRankSnoc(placed: seq<LegRow>, last: LegRow, leg: Leg)
    ensures BestRank(placed + [last], leg)
         == var earlier := BestRank(placed, leg);
            if last.leg != leg then earlier
            else if earlier.None? then Some(last.row.rank)
            else Some(Min(earlier.value, last.row.rank))
  {
    assert (placed + [last])[..|placed|] == placed;
  }

  lemma SameLegTerms(ranks: seq<LegRank>, placed: seq<LegRow>, legs: seq<Leg>, last: LegRow)
    requires TermsTell(ranks, placed, legs) && LegsAscend(legs) && legs != [] && last.leg == legs[|legs| - 1]
    ensures var n := |ranks| - 1;
            TermsTell(ranks[..n] + [ranks[n].(rank := Min(ranks[n].rank, last.row.rank))], placed + [last], legs)
  {
    var n := |ranks| - 1;
    var updated := ranks[..n] + [ranks[n].(rank := Min(ranks[n].rank, last.row.rank))];
    hide BestRank, WeightOf;
    forall i | 0 <= i < |legs|
      ensures BestRank(placed + [last], legs[i]) == Some(updated[i].rank) && updated[i].weight == WeightOf(legs[i])
    {
      BestRankSnoc(placed, last, legs[i]);
      assert i < n ==> LegLess(legs[i], legs[n]);
    }
  }

  lemma NewLegTerms(ranks: seq<LegRank>, placed: seq<LegRow>, legs: seq<Leg>, last: LegRow)
    requires TermsTell(ranks, placed, legs) && last.leg !in legs && BestRank(placed, last.leg).None?
    requires last.leg.priority == Priority(last.row.provider)
    ensures TermsTell(ranks + [LegRank(last.row.rank, LegWeight(last.row.provider))],
              placed + [last], legs + [last.leg])
  {
    assert WeightOf(last.leg) == LegWeight(last.row.provider);
    hide BestRank, WeightOf, LegWeight, Priority;
    var grown := legs + [last.leg];
    forall i | 0 <= i < |grown|
      ensures BestRank(placed + [last], grown[i]) == Some(if i < |ranks| then ranks[i].rank else last.row.rank)
    {
      BestRankSnoc(placed, last, grown[i]);
    }
  }

  lemma TermsStep(group: Group, placed: seq<LegRow>, last: LegRow)
    requires placed != [] && InOrder(placed + [last]) && InOrder(placed)
    requires TermsTell(group.legRanks, placed, Legs(placed)) && group.lastLeg == placed[|placed| - 1].leg
    ensures TermsTell(RanksWith(group, last), placed + [last], Legs(placed + [last]))
  {
    var grown, legs := placed + [last], Legs(placed);
    assert grown[..|placed|] == placed && grown[|placed|] == last;
    assert last.leg.priority == Priority(last.row.provider);
    LegsAscendInOrder(placed);
    LegsAscendInOrder(grown);
    LegsAreTheirs(placed, last.leg);
    assert Legs(grown) == if last.leg in legs then legs else legs + [last.leg];
    hide InOrder, Legs, BestRank, LegLess, Priority, LegsAscend;
    if last.leg in legs {
      SameLegTerms(group.legRanks, placed, legs, last);
    } else {
      NewLegTerms(group.legRanks, placed, legs, last);
    }
    hide TermsTell;
  }

  /** Remembering only the last leg keeps exactly one term for each leg, at the best rank that leg gave. */
  lemma {:induction false} OneTermPerLeg(key: string, placed: seq<LegRow>)
    requires placed != [] && InOrder(placed)
    ensures TermsTell(GroupOf(key, placed).legRanks, placed, Legs(placed)) && LegsAscend(Legs(placed))
    ensures GroupOf(key, placed).lastLeg == placed[|placed| - 1].leg
  {
    hide TermsTell, InOrder, LegsAscend, Legs, MergedWith, RanksWith, GroupOf, NewGroup;
    LegsAscendInOrder(placed);
    var n := |placed| - 1;
    if n == 0 {
      OneTerm(key, placed);
    } else {
      InOrderSoFar(placed);
      OneTermPerLeg(key, placed[..n]);
      assert placed == placed[..n] + [placed[n]];
      TermsStep(GroupOf(key, placed[..n]), placed[..n], placed[n]);
      GroupOfSnoc(key, placed[..n], placed[n]);
    }
  }

  lemma InOrderSoFar(placed: seq<LegRow>)
    requires InOrder(placed) && placed != []
    ensures InOrder(placed[..|placed| - 1])
  {
    hide LegLess;
  }

  lemma OneTerm(key: string, placed: seq<LegRow>)
    requires |placed| == 1 && InOrder(placed)
    ensures TermsTell(GroupOf(key, placed).legRanks, placed, Legs(placed))
    ensures GroupOf(key, placed).lastLeg == placed[0].leg
  {
    assert placed[..0] == [] && Legs([]) == [];
    assert BestRank([], placed[0].leg) == None;
  }

  // ----- The rows of a merge are in order -----

  lemma {:induction false} PlaceIsItsLeg(leg: Leg, rows: seq<Row>, i: nat)
    ensures |InLeg(leg, rows)| == |rows|
    ensures i < |rows| ==> InLeg(leg, rows)[i] == LegRow(leg, rows[i])
  {
    if rows != [] {
      PlaceIsItsLeg(leg, rows[..|rows| - 1], i);
    }
  }

  lemma {:induction false} LegRowsAreOfTheLeg(queries: seq<string>, rows: seq<Row>, leg: Leg, i: nat)
    requires i < |LegRows(queries, rows, leg)|
    ensures LegOf(queries, LegRows(queries, rows, leg)[i]) == leg
  {
    var earlier := LegRows(queries, rows[..|rows| - 1], leg);
    if i < |earlier| {
      LegRowsAreOfTheLeg(queries, rows[..|rows| - 1], leg, i);
    }
  }

  /** Each placed row sits under its own leg, and its leg is one of those placed. */
  lemma {:induction false} PlacedUnderTheirLegs(queries: seq<string>, rows: seq<Row>, legs: seq<Leg>, i: nat)
    requires i < |PlacedFor(queries, rows, legs)|
    ensures var placed := PlacedFor(queries, rows, legs)[i];
            placed.leg in legs && placed.leg == LegOf(queries, placed.row)
  {
    var n := |legs| - 1;
    var earlier, own := PlacedFor(queries, rows, legs[..n]), LegRows(queries, rows, legs[n]);
    assert legs == legs[..n] + [legs[n]];
    hide LegOf, LegRows;
    if i < |earlier| {
      PlacedUnderTheirLegs(queries, rows, legs[..n], i);
    } else {
      PlaceIsItsLeg(legs[n], own, i - |earlier|);
      assert PlacedFor(queries, rows, legs)[i] == InLeg(legs[n], own)[i - |earlier|];
      LegRowsAreOfTheLeg(queries, rows, legs[n], i - |earlier|);
    }
  }

  lemma {:induction false} PlacedAscend(queries: seq<string>, rows: seq<Row>, legs: seq<Leg>, i: nat, j: nat)
    requires LegsAscend(legs) && i < j < |PlacedFor(queries, rows, legs)|
    ensures var placed := PlacedFor(queries, rows, legs); !LegLess(placed[j].leg, placed[i].leg)
  {
    var n := |legs| - 1;
    var earlier, own := PlacedFor(queries, rows, legs[..n]), LegRows(queries, rows, legs[n]);
    hide LegRows;
    if j < |earlier| {
      PlacedAscend(queries, rows, legs[..n], i, j);
    } else {
      PlaceIsItsLeg(legs[n], own, j - |earlier|);
      if i < |earlier| {
        PlacedUnderTheirLegs(queries, rows, legs[..n], i);
        var k :| 0 <= k < n && legs[..n][k] == earlier[i].leg;
        assert LegLess(legs[k], legs[n]);
      } else {
        PlaceIsItsLeg(legs[n], own, i - |earlier|);
      }
    }
  }

  /** Rows come in leg order, so no leg is ever taken up again. */
  lemma FoldOrderIsInOrder(queries: seq<string>, rows: seq<Row>)
    ensures InOrder(InLegOrder(queries, rows))
  {
    var all := AllQueries(queries, rows);
    var legs := LegKeys(all, rows);
    var placed := PlacedFor(all, rows, legs);
    LegKeysAreTheLegs(all, rows, Leg(0, 0));
    hide AllQueries, LegKeys, PlacedFor, LegsAscend, LegLess;
    forall i, j | 0 <= i < j < |placed|
      ensures !LegLess(placed[j].leg, placed[i].leg)
    {
      PlacedAscend(all, rows, legs, i, j);
    }
    forall i | 0 <= i < |placed|
      ensures placed[i].leg.priority == Priority(placed[i].row.provider)
    {
      PlacedUnderTheirLegs(all, rows, legs, i);
    }
  }

  /** The rows of one key are among all rows, in their order. */
  lemma {:induction false} RowsForAreRows(dedupKey: string -> string, placed: seq<LegRow>, key: string, i: nat)
    requires i < |RowsFor(dedupKey, placed, key)|
    ensures RowsFor(dedupKey, placed, key)[i] in placed
    ensures dedupKey(RowsFor(dedupKey, placed, key)[i].row.url) == key
  {
    var n := |placed| - 1;
    if i < |RowsFor(dedupKey, placed[..n], key)| {
      RowsForAreRows(dedupKey, placed[..n], key, i);
    }
  }

  lemma {:induction false} RowsForStayInOrder(dedupKey: string -> string, placed: seq<LegRow>, key: string)
    requires InOrder(placed)
    ensures InOrder(RowsFor(dedupKey, placed, key))
  {
    if placed != [] {
      var n := |placed| - 1;
      InOrderSoFar(placed);
      RowsForStayInOrder(dedupKey, placed[..n], key);
      var earlier := RowsFor(dedupKey, placed[..n], key);
      forall i | 0 <= i < |earlier|
        ensures earlier[i] in placed[..n]
      {
        RowsForAreRows(dedupKey, placed[..n], key, i);
      }
      LastInOrder(placed, earlier);
      assert earlier + [] == earlier;
      hide InOrder;
    }
  }

  lemma LastInOrder(placed: seq<LegRow>, earlier: seq<LegRow>)
    requires placed != [] && InOrder(placed) && InOrder(earlier)
    requires forall i :: 0 <= i < |earlier| ==> earlier[i] in placed[..|placed| - 1]
    ensures InOrder(earlier + [placed[|placed| - 1]])
  {
    hide LegLess, Priority;
    var n := |placed| - 1;
    var grown := earlier + [placed[n]];
    forall i, j | 0 <= i < j < |grown|
      ensures !LegLess(grown[j].leg, grown[i].leg)
    {
      if j == |earlier| {
        assert grown[i] == earlier[i];
        var k :| 0 <= k < n && placed[..n][k] == earlier[i];
        assert !LegLess(placed[n].leg, placed[k].leg);
      }
    }
    assert forall i :: 0 <= i < |earlier| ==> grown[i] == earlier[i];
  }

  /** In every merge each group holds one term for each leg that returned its page, at that leg's best rank. */
  lemma MergedTerms(dedupKey: string -> string, queries: seq<string>, rows: seq<Row>, key: string)
    requires IsKey(dedupKey, InLegOrder(queries, rows), key)
    ensures var own := RowsFor(dedupKey, InLegOrder(queries, rows), key);
            TermsTell(GroupOf(key, own).legRanks, own, Legs(own)) && LegsAscend(Legs(own))
  {
    hide InLegOrder, RowsFor, GroupOf, TermsTell, Legs, LegsAscend, InOrder;
    FoldOrderIsInOrder(queries, rows);
    RowsForStayInOrder(dedupKey, InLegOrder(queries, rows), key);
    OneTermPerLeg(key, RowsFor(dedupKey, InLegOrder(queries, rows), key));
  }

  // ----- What else a group tells -----

  /** The first row of the best rank. */
  predicate IsFirstBestRow(placed: seq<LegRow>, i: int) {
    && 0 <= i < |placed|
    && (forall j :: 0 <= j < |placed| ==> placed[i].row.rank <= placed[j].row.rank)
    && (forall j :: 0 <= j < i ==> placed[i].row.rank < placed[j].row.rank)
  }

  lemma FirstBestRowStep(earlier: seq<LegRow>, last: LegRow, i: int)
    requires IsFirstBestRow(earlier, i)
    ensures IsFirstBestRow(earlier + [last], if last.row.rank < earlier[i].row.rank then |earlier| else i)
  {
  }

  lemma NamesSnoc(key: string, placed: seq<LegRow>, last: LegRow)
    requires placed != []
    ensures var before, after, row := GroupOf(key, placed).merged, GroupOf(key, placed + [last]).merged, last.row;
            && (row.rank < before.bestRank ==>
                  after.title == row.title && after.displayUrl == row.url && after.bestRank == row.rank)
            && (row.rank >= before.bestRank ==>
                  after.title == before.title && after.displayUrl == before.displayUrl
                  && after.bestRank == before.bestRank)
            && after.snippet == if ByteLen(row.snippet) > ByteLen(before.snippet) then row.snippet else before.snippet
  {
    hide ByteLen, AddProvider, AddQuery, RanksWith, GroupOf;
    GroupOfSnoc(key, placed, last);
    OnlyEmptyIsShort(last.row.snippet);
  }

  /** Title, display URL and rank are those of the first row, in leg order, that has the best rank. */
  lemma {:induction false} BestRowNamesTheHit(key: string, placed: seq<LegRow>)
    requires placed != []
    ensures exists i :: IsFirstBestRow(placed, i)
              && var merged, row := GroupOf(key, placed).merged, placed[i].row;
                 merged.title == row.title && merged.displayUrl == row.url && merged.bestRank == row.rank
  {
    var n := |placed| - 1;
    if n == 0 {
      assert IsFirstBestRow(placed, 0);
    } else {
      hide GroupOf, IsFirstBestRow;
      var earlier := placed[..n];
      assert placed == earlier + [placed[n]];
      NamesSnoc(key, earlier, placed[n]);
      BestRowNamesTheHit(key, earlier);
      var merged := GroupOf(key, earlier).merged;
      var i :| IsFirstBestRow(earlier, i)
               && merged.title == earlier[i].row.title && merged.displayUrl == earlier[i].row.url
               && merged.bestRank == earlier[i].row.rank;
      FirstBestRowStep(earlier, placed[n], i);
    }
  }

  /** The first of the longest snippets. */
  predicate IsFirstLongest(placed: seq<LegRow>, i: int) {
    && 0 <= i < |placed|
    && (forall j :: 0 <= j < |placed| ==> ByteLen(placed[j].row.snippet) <= ByteLen(placed[i].row.snippet))
    && (forall j :: 0 <= j < i ==> ByteLen(placed[j].row.snippet) < ByteLen(placed[i].row.snippet))
  }

  lemma OnlyEmptyIsShort(text: string)
    ensures ByteLen(text) == 0 <==> text == ""
  {
  }

  lemma FirstLongestStep(earlier: seq<LegRow>, last: LegRow, i: int)
    requires IsFirstLongest(earlier, i)
    ensures IsFirstLongest(earlier + [last],
              if ByteLen(last.row.snippet) > ByteLen(earlier[i].row.snippet) then |earlier| else i)
  {
    hide ByteLen;
  }

  lemma {:induction false} LongestSnippetIsKept(key: string, placed: seq<LegRow>)
    requires placed != []
    ensures exists i :: IsFirstLongest(placed, i) && GroupOf(key, placed).merged.snippet == placed[i].row.snippet
  {
    hide ByteLen;
    var n := |placed| - 1;
    if n == 0 {
      assert IsFirstLongest(placed, 0);
    } else {
      hide GroupOf, IsFirstLongest;
      var earlier := placed[..n];
      assert placed == earlier + [placed[n]];
      NamesSnoc(key, earlier, placed[n]);
      LongestSnippetIsKept(key, earlier);
      var i :| IsFirstLongest(earlier, i) && GroupOf(key, earlier).merged.snippet == earlier[i].row.snippet;
      FirstLongestStep(earlier, placed[n], i);
    }
  }

  predicate PrioritiesAscend(providers: seq<Provider>) {
    forall i, j :: 0 <= i < j < |providers| ==> Priority(providers[i]) < Priority(providers[j])
  }

  predicate TextsAscend(texts: seq<string>) {
    forall i, j :: 0 <= i < j < |texts| ==> TextLess(texts[i], texts[j])
  }

  lemma {:induction false} InsertingProvider(sorted: seq<Provider>, provider: Provider)
    requires PrioritiesAscend(sorted) && provider !in sorted
    ensures PrioritiesAscend(InsertProvider(sorted, provider))
    ensures forall x :: x in InsertProvider(sorted, provider) <==> x == provider || x in sorted
  {
    if sorted != [] && Priority(sorted[0]) <= Priority(provider) {
      var first, later := sorted[0], sorted[1..];
      InsertingProvider(later, provider);
      var rest := InsertProvider(later, provider);
      assert sorted == [first] + later && InsertProvider(sorted, provider) == [first] + rest;
      assert first != provider && Priority(first) != Priority(provider);
      hide Priority, InsertProvider;
      forall i | 0 <= i < |rest|
        ensures Priority(first) < Priority(rest[i])
      {
        assert rest[i] in rest;
        assert rest[i] == provider || rest[i] in later;
      }
    }
  }

  lemma {:induction false} InsertingQuery(sorted: seq<string>, query: string)
    requires TextsAscend(sorted) && query !in sorted
    ensures TextsAscend(InsertQuery(sorted, query))
    ensures forall x :: x in InsertQuery(sorted, query) <==> x == query || x in sorted
  {
    hide TextLess;
    if sorted != [] {
      assert sorted == [sorted[0]] + sorted[1..];
      assert sorted[0] in sorted;
      TextLessIsTotal(query, sorted[0]);
      if TextLess(query, sorted[0]) {
        forall i | 0 <= i < |sorted|
          ensures TextLess(query, sorted[i])
        {
          if i > 0 {
            TextLessIsTransitive(query, sorted[0], sorted[i]);
          }
        }
      } else {
        InsertingQuery(sorted[1..], query);
        var rest := InsertQuery(sorted[1..], query);
        forall i | 0 <= i < |rest|
          ensures TextLess(sorted[0], rest[i])
        {
          assert rest[i] in rest;
          assert rest[i] == query || rest[i] in sorted[1..];
        }
      }
    }
  }

  /** The providers and the queries of a group are those of its rows, each once, in priority and in text order. */
  lemma {:induction false} WhoFoundIt(key: string, placed: seq<LegRow>, provider: Provider, query: string)
    requires placed != []
    ensures var merged := GroupOf(key, placed).merged;
            && PrioritiesAscend(merged.providers) && TextsAscend(merged.queries)
            && (provider in merged.providers <==> exists i :: 0 <= i < |placed| && placed[i].row.provider == provider)
            && (query in merged.queries <==> exists i :: 0 <= i < |placed| && placed[i].row.query == query)
  {
    var n := |placed| - 1;
    if n == 0 {
      assert placed == [placed[0]];
      hide TextLess, Priority;
    } else {
      hide *;
      var earlier, row := placed[..n], placed[n].row;
      assert placed == earlier + [placed[n]];
      GroupOfSnoc(key, earlier, placed[n]);
      WhoFoundIt(key, earlier, provider, query);
      var merged := GroupOf(key, earlier).merged;
      AddingProvider(merged.providers, row.provider);
      AddingQuery(merged.queries, row.query);
      MergedFinders(GroupOf(key, earlier), placed[n]);
    }
  }

  lemma MergedFinders(group: Group, last: LegRow)
    ensures var merged := GroupWith(group, last).merged;
            && merged.providers == AddProvider(group.merged.providers, last.row.provider)
            && merged.queries == AddQuery(group.merged.queries, last.row.query)
  {
    hide ByteLen, RanksWith, InsertProvider, InsertQuery;
  }

  lemma AddingProvider(sorted: seq<Provider>, provider: Provider)
    requires PrioritiesAscend(sorted)
    ensures PrioritiesAscend(AddProvider(sorted, provider))
    ensures forall x :: x in AddProvider(sorted, provider) <==> x == provider || x in sorted
  {
    hide PrioritiesAscend, InsertProvider;
    if provider !in sorted {
      InsertingProvider(sorted, provider);
    }
  }

  lemma AddingQuery(sorted: seq<string>, query: string)
    requires TextsAscend(sorted)
    ensures TextsAscend(AddQuery(sorted, query))
    ensures forall x :: x in AddQuery(sorted, query) <==> x == query || x in sorted
  {
    hide TextsAscend, InsertQuery;
    if query !in sorted {
      InsertingQuery(sorted, query);
    }
  }

  // ----- Hits add up -----

  lemma {:induction false} HitsAreRows(key: string, placed: seq<LegRow>)
    requires placed != []
    ensures GroupOf(key, placed).merged.hitCount == |placed|
  {
    hide ByteLen, AddProvider, AddQuery, RanksWith;
    var n := |placed| - 1;
    if n > 0 {
      HitsAreRows(key, placed[..n]);
    }
  }

  function Hits<S>(out: seq<Scored<S>>): nat {
    if out == [] then 0 else Hits(out[..|out| - 1]) + out[|out| - 1].merged.hitCount
  }

  /** The rows whose URL has a key that is not blank. */
  function Keyed(dedupKey: string -> string, rows: seq<Row>): nat {
    if rows == [] then 0
    else
      Keyed(dedupKey, rows[..|rows| - 1]) + if IsBlank(dedupKey(rows[|rows| - 1].url)) then 0 else 1
  }

  function KeyedPlaced(dedupKey: string -> string, placed: seq<LegRow>): nat {
    if placed == [] then 0
    else
      KeyedPlaced(dedupKey, placed[..|placed| - 1])
      + if IsBlank(dedupKey(placed[|placed| - 1].row.url)) then 0 else 1
  }

  predicate Distinct<T(==)>(s: seq<T>) {
    forall i, j :: 0 <= i < j < |s| ==> s[i] != s[j]
  }

  /** The rows of several keys together. */
  function RowsOf(dedupKey: string -> string, placed: seq<LegRow>, keys: seq<string>): nat {
    if keys == [] then 0
    else RowsOf(dedupKey, placed, keys[..|keys| - 1]) + |RowsFor(dedupKey, placed, keys[|keys| - 1])|
  }

  lemma {:induction false} OneMoreRow(dedupKey: string -> string, placed: seq<LegRow>, last: LegRow, keys: seq<string>)
    requires Distinct(keys)
    ensures RowsOf(dedupKey, placed + [last], keys)
         == RowsOf(dedupKey, placed, keys) + if dedupKey(last.row.url) in keys then 1 else 0
  {
    hide RowsFor;
    if keys != [] {
      var n := |keys| - 1;
      OneMoreRow(dedupKey, placed, last, keys[..n]);
      RowsForSnoc(dedupKey, placed, last, keys[n]);
      assert keys == keys[..n] + [keys[n]];
      assert keys[n] !in keys[..n];
    }
  }

  lemma {:induction false} NoRowsYet(dedupKey: string -> string, keys: seq<string>)
    ensures RowsOf(dedupKey, [], keys) == 0
  {
    if keys != [] {
      NoRowsYet(dedupKey, keys[..|keys| - 1]);
    }
  }

  lemma {:induction false} KeysCoverRows(dedupKey: string -> string, placed: seq<LegRow>, keys: seq<string>)
    requires Distinct(keys) && forall i :: 0 <= i < |keys| ==> !IsBlank(keys[i])
    requires forall i :: 0 <= i < |placed| ==>
      IsBlank(dedupKey(placed[i].row.url)) || dedupKey(placed[i].row.url) in keys
    ensures RowsOf(dedupKey, placed, keys) == KeyedPlaced(dedupKey, placed)
  {
    hide IsBlank, RowsFor, RowsOf;
    NoRowsYet(dedupKey, keys);
    if placed != [] {
      var n := |placed| - 1;
      KeysCoverRows(dedupKey, placed[..n], keys);
      OneMoreRow(dedupKey, placed[..n], placed[n], keys);
      assert placed == placed[..n] + [placed[n]];
    }
  }

  lemma {:induction false} KeyedAppend(dedupKey: string -> string, a: seq<LegRow>, b: seq<LegRow>)
    ensures KeyedPlaced(dedupKey, a + b) == KeyedPlaced(dedupKey, a) + KeyedPlaced(dedupKey, b)
  {
    hide IsBlank;
    if b == [] {
      assert a + b == a;
    } else {
      KeyedAppend(dedupKey, a, b[..|b| - 1]);
      assert (a + b)[..|a + b| - 1] == a + b[..|b| - 1];
    }
  }

  lemma {:induction false} PlacingKeepsCount(dedupKey: string -> string, leg: Leg, rows: seq<Row>)
    ensures KeyedPlaced(dedupKey, InLeg(leg, rows)) == Keyed(dedupKey, rows)
  {
    hide IsBlank;
    if rows != [] {
      var n := |rows| - 1;
      PlacingKeepsCount(dedupKey, leg, rows[..n]);
      assert InLeg(leg, rows)[..|InLeg(leg, rows)| - 1] == InLeg(leg, rows[..n]);
    }
  }

  /** The keyed rows of several legs together. */
  function InLegs(dedupKey: string -> string, all: seq<string>, rows: seq<Row>, legs: seq<Leg>): nat {
    if legs == [] then 0
    else
      InLegs(dedupKey, all, rows, legs[..|legs| - 1]) + Keyed(dedupKey, LegRows(all, rows, legs[|legs| - 1]))
  }

  lemma {:induction false} PlacedAreInLegs(dedupKey: string -> string, all: seq<string>, rows: seq<Row>, legs: seq<Leg>)
    ensures KeyedPlaced(dedupKey, PlacedFor(all, rows, legs)) == InLegs(dedupKey, all, rows, legs)
  {
    hide IsBlank, LegRows, Keyed;
    if legs != [] {
      var n := |legs| - 1;
      var own := LegRows(all, rows, legs[n]);
      PlacedAreInLegs(dedupKey, all, rows, legs[..n]);
      KeyedAppend(dedupKey, PlacedFor(all, rows, legs[..n]), InLeg(legs[n], own));
      PlacingKeepsCount(dedupKey, legs[n], own);
      hide KeyedPlaced, InLeg;
    }
  }

  lemma KeyedSnoc(dedupKey: string -> string, rows: seq<Row>, row: Row)
    ensures Keyed(dedupKey, rows + [row]) == Keyed(dedupKey, rows) + if IsBlank(dedupKey(row.url)) then 0 else 1
    ensures Keyed(dedupKey, []) == 0
  {
    assert (rows + [row])[..|rows|] == rows;
  }

  lemma {:induction false} OneMoreInLegs(
    dedupKey: string -> string, all: seq<string>, rows: seq<Row>, row: Row, legs: seq<Leg>)
    requires Distinct(legs)
    ensures InLegs(dedupKey, all, rows + [row], legs)
         == InLegs(dedupKey, all, rows, legs)
            + if LegOf(all, row) in legs && !IsBlank(dedupKey(row.url)) then 1 else 0
  {
    hide IsBlank, LegRows, Keyed, LegOf;
    if legs != [] {
      var n := |legs| - 1;
      var own := LegRows(all, rows, legs[n]);
      OneMoreInLegs(dedupKey, all, rows, row, legs[..n]);
      LegRowsSnoc(all, rows, row, legs[n]);
      KeyedSnoc(dedupKey, own, row);
      assert own + [] == own;
      assert legs == legs[..n] + [legs[n]] && legs[n] !in legs[..n];
    }
  }

  lemma {:induction false} NoRowsInLegs(dedupKey: string -> string, all: seq<string>, legs: seq<Leg>)
    ensures InLegs(dedupKey, all, [], legs) == 0
  {
    if legs != [] {
      NoRowsInLegs(dedupKey, all, legs[..|legs| - 1]);
    }
  }

  /** Splitting rows into legs loses none and doubles none. */
  lemma {:induction false} LegsCoverRows(dedupKey: string -> string, all: seq<string>, rows: seq<Row>, legs: seq<Leg>)
    requires Distinct(legs) && forall i :: 0 <= i < |rows| ==> LegOf(all, rows[i]) in legs
    ensures InLegs(dedupKey, all, rows, legs) == Keyed(dedupKey, rows)
  {
    hide IsBlank, InLegs, LegOf;
    NoRowsInLegs(dedupKey, all, legs);
    if rows != [] {
      var n := |rows| - 1;
      LegsCoverRows(dedupKey, all, rows[..n], legs);
      OneMoreInLegs(dedupKey, all, rows[..n], rows[n], legs);
      assert rows == rows[..n] + [rows[n]];
    }
  }

  lemma {:induction false} RowIsInItsLeg(all: seq<string>, rows: seq<Row>, i: nat)
    requires i < |rows|
    ensures LegRows(all, rows, LegOf(all, rows[i])) != []
  {
    hide LegOf;
    if i < |rows| - 1 {
      RowIsInItsLeg(all, rows[..|rows| - 1], i);
    }
  }

  lemma PlacedHoldEveryRow(dedupKey: string -> string, queries: seq<string>, rows: seq<Row>)
    ensures KeyedPlaced(dedupKey, InLegOrder(queries, rows)) == Keyed(dedupKey, rows)
  {
    var all := AllQueries(queries, rows);
    var legs := LegKeys(all, rows);
    LegKeysAreTheLegs(all, rows, Leg(0, 0));
    assert Distinct(legs);
    hide LegKeys, LegsAscend, AllQueries, PlacedFor, KeyedPlaced, InLegs, Keyed, LegOf, LegRows;
    forall i | 0 <= i < |rows|
      ensures LegOf(all, rows[i]) in legs
    {
      RowIsInItsLeg(all, rows, i);
      LegKeysAreTheLegs(all, rows, LegOf(all, rows[i]));
    }
    PlacedAreInLegs(dedupKey, all, rows, legs);
    LegsCoverRows(dedupKey, all, rows, legs);
  }

  function KeysOf<S>(out: seq<Scored<S>>): seq<string> {
    if out == [] then [] else KeysOf(out[..|out| - 1]) + [out[|out| - 1].merged.canonicalUrl]
  }

  lemma {:induction false} KeysAre<S>(out: seq<Scored<S>>, i: nat)
    ensures |KeysOf(out)| == |out|
    ensures i < |out| ==> KeysOf(out)[i] == out[i].merged.canonicalUrl
  {
    if out != [] {
      KeysAre(out[..|out| - 1], i);
    }
  }

  lemma EntryHits<S>(setup: Setup<S>, placed: seq<LegRow>, entry: Scored<S>)
    requires IsEntry(setup, placed, entry)
    ensures entry.merged.hitCount == |RowsFor(setup.dedupKey, placed, entry.merged.canonicalUrl)|
  {
    var key := entry.merged.canonicalUrl;
    HitsAreRows(key, RowsFor(setup.dedupKey, placed, key));
    hide GroupOf, RowsFor, RrfScore, IsBlank;
  }

  lemma SumsSnoc<S>(dedupKey: string -> string, placed: seq<LegRow>, out: seq<Scored<S>>)
    requires out != []
    ensures var n := |out| - 1; var key := out[n].merged.canonicalUrl;
            && Hits(out) == Hits(out[..n]) + out[n].merged.hitCount
            && RowsOf(dedupKey, placed, KeysOf(out))
               == RowsOf(dedupKey, placed, KeysOf(out[..n])) + |RowsFor(dedupKey, placed, key)|
  {
    hide RowsFor;
    var n := |out| - 1;
    KeysAre(out[..n], 0);
    assert KeysOf(out)[..n] == KeysOf(out[..n]) && KeysOf(out)[n] == out[n].merged.canonicalUrl;
  }

  lemma {:induction false} HitsAreKeyRows<S>(setup: Setup<S>, placed: seq<LegRow>, out: seq<Scored<S>>)
    requires forall i :: 0 <= i < |out| ==> IsEntry(setup, placed, out[i])
    ensures Hits(out) == RowsOf(setup.dedupKey, placed, KeysOf(out))
  {
    hide IsEntry;
    if out != [] {
      var n := |out| - 1;
      HitsAreKeyRows(setup, placed, out[..n]);
      EntryHits(setup, placed, out[n]);
      SumsSnoc(setup.dedupKey, placed, out);
      hide *;
    }
  }

  lemma SameKeySameEntry<S>(setup: Setup<S>, placed: seq<LegRow>, x: Scored<S>, y: Scored<S>)
    requires IsEntry(setup, placed, x) && IsEntry(setup, placed, y) && x.merged.canonicalUrl == y.merged.canonicalUrl
    ensures x == y
  {
    hide EntryFor, IsKey;
  }

  lemma KeysAreDistinct<S(!new)>(setup: Setup<S>, placed: seq<LegRow>, out: seq<Scored<S>>)
    requires IsTotal(setup) && Ordered(setup, out)
    requires forall i :: 0 <= i < |out| ==> IsEntry(setup, placed, out[i])
    ensures Distinct(KeysOf(out))
  {
    hide Before, IsEntry, KeysOf, IsTotal;
    KeysAre(out, 0);
    forall i, j | 0 <= i < j < |out|
      ensures KeysOf(out)[i] != KeysOf(out)[j]
    {
      KeysAre(out, i);
      KeysAre(out, j);
      BeforeIsStrict(setup, out[i], out[j]);
      if out[i].merged.canonicalUrl == out[j].merged.canonicalUrl {
        SameKeySameEntry(setup, placed, out[i], out[j]);
      }
    }
  }

  lemma {:induction false} RowHasItsKey(dedupKey: string -> string, placed: seq<LegRow>, i: nat)
    requires i < |placed|
    ensures RowsFor(dedupKey, placed, dedupKey(placed[i].row.url)) != []
  {
    if i < |placed| - 1 {
      RowHasItsKey(dedupKey, placed[..|placed| - 1], i);
    }
  }

  lemma EveryKeyIsListed<S>(setup: Setup<S>, queries: seq<string>, rows: seq<Row>, out: seq<Scored<S>>, i: nat)
    requires IsFusion(setup, queries, rows, out) && i < |InLegOrder(queries, rows)|
    ensures var key := setup.dedupKey(InLegOrder(queries, rows)[i].row.url);
            IsBlank(key) || key in KeysOf(out)
  {
    var placed := InLegOrder(queries, rows);
    var key := setup.dedupKey(placed[i].row.url);
    RowHasItsKey(setup.dedupKey, placed, i);
    if !IsBlank(key) {
      assert IsKey(setup.dedupKey, placed, key);
      hide InLegOrder, Ordered, IsBlank, KeysOf, EntryFor, RowsFor;
      EntryKeepsKey(setup, placed, key);
      var k :| 0 <= k < |out| && out[k] == EntryFor(setup, placed, key);
      KeysAre(out, k);
    }
  }

  /** Hit counts add up to the rows that have a key: none is lost and none counted twice. */
  lemma HitsAddUp<S(!new)>(setup: Setup<S>, queries: seq<string>, rows: seq<Row>, out: seq<Scored<S>>)
    requires IsTotal(setup) && IsFusion(setup, queries, rows, out)
    ensures Hits(out) == Keyed(setup.dedupKey, rows)
  {
    var placed, keys := InLegOrder(queries, rows), KeysOf(out);
    FusionIsEntries(setup, queries, rows, out);
    hide *;
    HitsAreKeyRows(setup, placed, out);
    KeysAreDistinct(setup, placed, out);
    forall i | 0 <= i < |placed|
      ensures IsBlank(setup.dedupKey(placed[i].row.url)) || setup.dedupKey(placed[i].row.url) in keys
    {
      EveryKeyIsListed(setup, queries, rows, out, i);
    }
    forall i | 0 <= i < |keys|
      ensures !IsBlank(keys[i])
    {
      KeysAre(out, i);
      EntryIsKeyed(setup, placed, out[i]);
    }
    KeysCoverRows(setup.dedupKey, placed, keys);
    PlacedHoldEveryRow(setup.dedupKey, queries, rows);
  }

  lemma EntryIsKeyed<S>(setup: Setup<S>, placed: seq<LegRow>, entry: Scored<S>)
    requires IsEntry(setup, placed, entry)
    ensures !IsBlank(entry.merged.canonicalUrl)
  {
    hide IsBlank, EntryFor;
  }

  lemma FusionIsEntries<S>(setup: Setup<S>, queries: seq<string>, rows: seq<Row>, out: seq<Scored<S>>)
    requires IsFusion(setup, queries, rows, out)
    ensures Ordered(setup, out)
    ensures forall i :: 0 <= i < |out| ==> IsEntry(setup, InLegOrder(queries, rows), out[i])
  {
    hide EntryFor, IsKey, InLegOrder, Ordered;
  }
}
