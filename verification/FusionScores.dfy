/**
 The order of a merged list and the scores it is ordered by (`rrf_score` and `compare_scored` of
 `src/web/search/dedup.rs`), told without the merge: best first, and a score that is the sum over
 the legs that found the page.
 */
module FusionScores {
  import opened Prelude
  import opened Fusion
  import opened FusionGroups

  /**
   A merged list runs from the best score to the worst; of equal scores the hit of more queries
   comes first, then the better rank, then the display URL that is first in text order.
   */
  lemma {:induction false} FusionRunsFromTheBest<S(!new)>(
    setup: Setup<S>, queries: seq<string>, rows: seq<Row>, out: seq<Scored<S>>, i: nat, j: nat)
    requires IsTotal(setup) && IsFusion(setup, queries, rows, out) && i < j < |out|
    ensures var a, b := out[i].merged, out[j].merged;
            && !setup.less(out[i].score, out[j].score)
            && (out[i].score == out[j].score ==>
                  && |a.queries| >= |b.queries|
                  && (|a.queries| == |b.queries| ==>
                        && a.bestRank <= b.bestRank
                        && (a.bestRank == b.bestRank ==> TextLess(a.displayUrl, b.displayUrl))))
  {
    InTurn(setup, queries, rows, out, i, j);
    hide IsFusion;
  }

  lemma {:induction false} InTurn<S(!new)>(
    setup: Setup<S>, queries: seq<string>, rows: seq<Row>, out: seq<Scored<S>>, i: nat, j: nat)
    requires IsFusion(setup, queries, rows, out) && i < j < |out|
    ensures Before(setup, out[i], out[j])
  {
    hide Before, InLegOrder, IsKey, EntryFor;
  }

  // ----- The sum -----

  /** Terms in ascending order of rank, the lighter first: the one order in which a score is summed. */
  lemma {:induction false} SummedByRank(ranks: seq<LegRank>, i: nat, j: nat)
    requires i < j < |ranks|
    ensures |SortRanks(ranks)| == |ranks|
    ensures var a, b := SortRanks(ranks)[i], SortRanks(ranks)[j];
            a.rank < b.rank || (a.rank == b.rank && a.weight <= b.weight)
  {
    SortingRanks(ranks);
    hide SortRanks;
    assert |SortRanks(ranks)| == |multiset(SortRanks(ranks))| == |ranks|;
  }

  /** Addition as on paper. */
  ghost predicate IsSum<S(!new)>(setup: Setup<S>) {
    && (forall x, y :: setup.add(x, y) == setup.add(y, x))
    && (forall x, y, z :: setup.add(setup.add(x, y), z) == setup.add(x, setup.add(y, z)))
  }

  lemma {:induction false} SumSnoc<S>(setup: Setup<S>, ranks: seq<LegRank>, x: LegRank)
    ensures SumUp(setup, ranks + [x]) == setup.add(SumUp(setup, ranks), setup.term(x))
  {
    assert (ranks + [x])[..|ranks|] == ranks;
  }

  lemma {:induction false} SumConcat<S(!new)>(setup: Setup<S>, a: seq<LegRank>, x: LegRank, b: seq<LegRank>)
    requires IsSum(setup)
    ensures SumUp(setup, a + [x] + b) == setup.add(SumUp(setup, a + b), setup.term(x))
  {
    hide SumUp;
    if b == [] {
      assert a + [x] + b == a + [x] && a + b == a;
      SumSnoc(setup, a, x);
    } else {
      var n, last := |b| - 1, b[|b| - 1];
      SumConcat(setup, a, x, b[..n]);
      assert a + [x] + b == (a + [x] + b[..n]) + [last] && a + b == (a + b[..n]) + [last];
      SumSnoc(setup, a + [x] + b[..n], last);
      SumSnoc(setup, a + b[..n], last);
    }
  }

  lemma {:induction false} Inserted(sorted: seq<LegRank>, x: LegRank) returns (k: nat)
    ensures k <= |sorted| && InsertRank(sorted, x) == sorted[..k] + [x] + sorted[k..]
  {
    if sorted == [] || !RankLess(sorted[0], x) {
      k := 0;
    } else {
      var later := Inserted(sorted[1..], x);
      k := later + 1;
      assert sorted[..k] == [sorted[0]] + sorted[1..][..later] && sorted[k..] == sorted[1..][later..];
      hide InsertRank;
    }
  }

  /** Where addition is exact the sorting does not show: a score is the plain sum of its terms. */
  lemma {:induction false} ScoreIsTheSum<S(!new)>(setup: Setup<S>, ranks: seq<LegRank>)
    requires IsSum(setup)
    ensures RrfScore(setup, ranks) == SumUp(setup, ranks)
  {
    if ranks != [] {
      var n := |ranks| - 1;
      ScoreIsTheSum(setup, ranks[..n]);
      var sorted, x := SortRanks(ranks[..n]), ranks[n];
      var k := Inserted(sorted, x);
      assert SortRanks(ranks) == InsertRank(sorted, x);
      assert ranks == ranks[..n] + [x] && sorted == sorted[..k] + sorted[k..];
      hide SortRanks, InsertRank, SumUp;
      SumConcat(setup, sorted[..k], x, sorted[k..]);
      SumSnoc(setup, ranks[..n], x);
    }
  }

  // ----- Exact scores -----

  /** One leg's term on exact numbers: weight / (60 + rank), ranks counted from one. */
  function Term(weight: nat, rank: nat): real {
    weight as real / (61 + rank) as real
  }

  /** The merge with real numbers for scores. */
  function Exactly(dedupKey: string -> string, factor: Merged -> real): Setup<real> {
    Setup(
      dedupKey, (r: LegRank) => Term(r.weight, r.rank), 0.0, (x: real, y: real) => x + y,
      (x: real, y: real) => x * y, factor, (x: real, y: real) => x < y)
  }

  /** The sum over legs of each leg's term at the best rank it gave one of the rows. */
  function LegSum(own: seq<LegRow>, legs: seq<Leg>): real {
    if legs == [] then 0.0
    else
      var leg := legs[|legs| - 1];
      LegSum(own, legs[..|legs| - 1])
      + match BestRank(own, leg) case Some(rank) => Term(WeightOf(leg), rank) case None => 0.0
  }

  lemma {:induction false} TermsAreLegSum(
    dedupKey: string -> string, factor: Merged -> real, ranks: seq<LegRank>, own: seq<LegRow>, legs: seq<Leg>)
    requires TermsTell(ranks, own, legs)
    ensures SumUp(Exactly(dedupKey, factor), ranks) == LegSum(own, legs)
  {
    hide BestRank, WeightOf, Term;
    if legs != [] {
      var n := |legs| - 1;
      TermsAreLegSum(dedupKey, factor, ranks[..n], own, legs[..n]);
      assert ranks == ranks[..n] + [ranks[n]];
      SumSnoc(Exactly(dedupKey, factor), ranks[..n], ranks[n]);
      hide SumUp;
    }
  }

  /**
   On exact numbers the score of every hit of every merge is the sum over the legs that returned
   its page, each at that leg's best rank for it, times the factor of the hit.
   */
  lemma {:induction false} ScoresAreLegSums(
    dedupKey: string -> string, factor: Merged -> real, queries: seq<string>, rows: seq<Row>, out: seq<Scored<real>>,
    i: nat)
    requires IsFusion(Exactly(dedupKey, factor), queries, rows, out) && i < |out|
    ensures var own := RowsFor(dedupKey, InLegOrder(queries, rows), out[i].merged.canonicalUrl);
            out[i].score == LegSum(own, Legs(own)) * factor(out[i].merged)
  {
    hide InLegOrder, RowsFor, GroupOf, TermsTell, Legs, Ordered, SumUp, RrfScore, LegSum, Term;
    var setup, key := Exactly(dedupKey, factor), out[i].merged.canonicalUrl;
    assert IsKey(setup.dedupKey, InLegOrder(queries, rows), key);
    var own := RowsFor(dedupKey, InLegOrder(queries, rows), key);
    MergedTerms(dedupKey, queries, rows, key);
    var ranks := GroupOf(key, own).legRanks;
    assert IsSum(setup);
    ScoreIsTheSum(setup, ranks);
    TermsAreLegSum(dedupKey, factor, ranks, own, Legs(own));
    assert out[i] == EntryFor(setup, InLegOrder(queries, rows), key);
    hide IsFusion;
  }

  /**
   Why a vertical leg weighs two: at its first rank it outscores two engines at rank five, which
   one engine does not, ties with two engines at rank one and stays below three.
   */
  lemma {:induction false} VerticalWeightIsEnough()
    ensures var w, v := LegWeight(Startpage), LegWeight(CratesIo);
            && Term(w, 0) < Term(w, 4) + Term(w, 4) < Term(v, 0)
            && Term(v, 0) == Term(w, 0) + Term(w, 0) < Term(w, 0) + Term(w, 0) + Term(w, 0)
  {
  }

  /** Engines in the order their rows are folded, and no two share a place. */
  lemma {:induction false} EnginesInOrder(a: Provider, b: Provider)
    ensures PrioritiesAscend([Startpage, Brave, Yahoo, DuckDuckGo, Bing, CratesIo])
    ensures Priority(a) == Priority(b) ==> a == b
    ensures LegWeight(a) == if a == CratesIo then 2 * LegWeight(Startpage) else LegWeight(Startpage)
  {
  }

  /** The date of a hit is the first one its rows give, in leg order. */
  predicate IsFirstDate(placed: seq<LegRow>, date: Option<string>) {
    if placed == [] then date == None
    else if placed[0].row.date.Some? then date == placed[0].row.date
    else IsFirstDate(placed[1..], date)
  }

  lemma {:induction false} FirstDateSnoc(placed: seq<LegRow>, last: LegRow, date: Option<string>)
    requires IsFirstDate(placed, date)
    ensures IsFirstDate(placed + [last], if date.None? then last.row.date else date)
  {
    if placed == [] {
      assert (placed + [last])[1..] == [];
    } else {
      assert (placed + [last])[1..] == placed[1..] + [last];
      if placed[0].row.date.None? {
        FirstDateSnoc(placed[1..], last, date);
      }
    }
  }

  lemma {:induction false} FirstDateIsKept(key: string, placed: seq<LegRow>)
    requires placed != []
    ensures IsFirstDate(placed, GroupOf(key, placed).merged.date)
  {
    var n := |placed| - 1;
    var earlier := placed[..n];
    assert placed == earlier + [placed[n]];
    if n == 0 {
      assert placed[1..] == [];
    } else {
      FirstDateIsKept(key, earlier);
      GroupOfSnoc(key, earlier, placed[n]);
      DateWith(GroupOf(key, earlier), placed[n]);
      hide GroupOf, GroupWith, IsFirstDate;
      FirstDateSnoc(earlier, placed[n], GroupOf(key, earlier).merged.date);
    }
  }

  lemma {:induction false} DateWith(group: Group, last: LegRow)
    ensures GroupWith(group, last).merged.date
         == if group.merged.date.None? then last.row.date else group.merged.date
  {
    hide ByteLen, AddProvider, AddQuery, RanksWith;
  }

  /**
   Rows are folded leg by leg: engines by priority, and the queries of one engine in the order
   they were asked.
   */
  lemma {:induction false} FoldOrderTells(queries: seq<string>, rows: seq<Row>, i: nat, j: nat)
    requires i < j < |InLegOrder(queries, rows)|
    ensures var a, b := InLegOrder(queries, rows)[i], InLegOrder(queries, rows)[j];
            var p, q := Priority(a.row.provider), Priority(b.row.provider);
            && p <= q
            && (p == q && a.row.query in queries && b.row.query in queries ==>
                  IndexOf(queries, a.row.query) <= IndexOf(queries, b.row.query))
            && (p == q && a.row.query !in queries ==> b.row.query !in queries)
  {
    FoldOrderIsInOrder(queries, rows);
    var all := AllQueries(queries, rows);
    PlacedUnderTheirLegs(all, rows, LegKeys(all, rows), i);
    PlacedUnderTheirLegs(all, rows, LegKeys(all, rows), j);
    var a, b := InLegOrder(queries, rows)[i], InLegOrder(queries, rows)[j];
    IndexOfAppend(queries, Unlisted(queries, rows), a.row.query);
    IndexOfAppend(queries, Unlisted(queries, rows), b.row.query);
    IndexOfIsFirst(queries, a.row.query);
    IndexOfIsFirst(queries, b.row.query);
    hide LegKeys, PlacedFor, Unlisted, IndexOf, Priority;
  }

  /** A snippet's length is that of its UTF-8 bytes (section 3 of RFC 3629). */
  lemma {:induction false} ByteLenTells(c: char, rest: string)
    ensures ByteLen([c] + rest)
         == (if c as int <= 0x7F then 1 else if c as int <= 0x7FF then 2 else if c as int <= 0xFFFF then 3 else 4)
            + ByteLen(rest)
    ensures ByteLen("") == 0
  {
    assert ([c] + rest)[1..] == rest;
  }
}
