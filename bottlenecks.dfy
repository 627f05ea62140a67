/** The bottleneck analysis page (src/pages/Bottlenecks.tsx): the built-in
    catalog of detected bottlenecks, the per-severity counts of the summary
    cards, the rounded average impact and the severity badge colours. */
module Bottlenecks {
  import opened Types
  import opened JsSemantics
  import opened Localization
  import Optimize

  // ---------------------------------------------------------------------------
  // Severity counts
  // ---------------------------------------------------------------------------

  /** `bottlenecks.filter(b => b.severity === severity)`. */
  function WithSeverity(bs: seq<Bottleneck>, severity: Level): (r: seq<Bottleneck>)
    ensures |r| <= |bs|
    ensures forall i :: 0 <= i < |r| ==> r[i].severity == severity
  {
    if bs == [] then []
    else
      var rest := WithSeverity(bs[1..], severity);
      if bs[0].severity == severity then [bs[0]] + rest else rest
  }

  /** The filter keeps every entry of the severity, as often as it occurs,
      and drops every other entry. */
  lemma {:induction false} WithSeverityOccurrences(bs: seq<Bottleneck>, severity: Level)
    ensures forall b :: multiset(WithSeverity(bs, severity))[b] == if b.severity == severity then multiset(bs)[b] else 0
  {
    if bs != [] {
      assert bs == [bs[0]] + bs[1..];
      WithSeverityOccurrences(bs[1..], severity);
    }
  }

  /** The number a summary card shows: `.filter(...).length`. */
  function SeverityCount(bs: seq<Bottleneck>, severity: Level): (n: nat)
    ensures n <= |bs|
  {
    |WithSeverity(bs, severity)|
  }

  /** Severity has exactly three values, so the three cards split the list. */
  lemma {:induction false} SeverityCountsPartition(bs: seq<Bottleneck>)
    ensures SeverityCount(bs, High) + SeverityCount(bs, Medium) + SeverityCount(bs, Low) == |bs|
  {
    if bs != [] {
      SeverityCountsPartition(bs[1..]);
    }
  }

  // ---------------------------------------------------------------------------
  // Average impact
  // ---------------------------------------------------------------------------

  /** `bottlenecks.reduce((acc, b) => acc + b.impact, 0)`, folding from the
      left. */
  function SumImpact(bs: seq<Bottleneck>): int
  {
    if bs == [] then 0 else SumImpact(bs[..|bs| - 1]) + bs[|bs| - 1].impact
  }

  /** Every impact of the list lies within [lo, hi]. */
  predicate ImpactsWithin(bs: seq<Bottleneck>, lo: int, hi: int)
  {
    forall i :: 0 <= i < |bs| ==> lo <= bs[i].impact <= hi
  }

  lemma {:induction false} SumImpactBounds(bs: seq<Bottleneck>, lo: int, hi: int)
    requires ImpactsWithin(bs, lo, hi)
    ensures lo * |bs| <= SumImpact(bs) <= hi * |bs|
  {
    if bs != [] {
      var init := bs[..|bs| - 1];
      assert ImpactsWithin(init, lo, hi) by {
        forall i | 0 <= i < |init| ensures lo <= init[i].impact <= hi {
          assert init[i] == bs[i];
        }
      }
      SumImpactBounds(init, lo, hi);
      assert lo * |bs| == lo * |init| + lo;
      assert hi * |bs| == hi * |init| + hi;
    }
  }

  /** The average-impact card: `Math.round(sum / bottlenecks.length)`. For an
      empty list the source divides by zero and shows NaN; the model says None. */
  function AverageImpact(bs: seq<Bottleneck>): (r: Option<int>)
    ensures r == None <==> bs == []
    ensures r.Some? ==> |bs| * (2 * r.value - 1) <= 2 * SumImpact(bs) < |bs| * (2 * r.value + 1)
  {
    if bs == [] then None else Some(RoundDiv(SumImpact(bs), |bs|))
  }

  /** The rounded average of whole impacts stays between the smallest and the
      largest impact. */
  lemma AverageWithinImpacts(bs: seq<Bottleneck>, lo: int, hi: int)
    requires bs != [] && ImpactsWithin(bs, lo, hi)
    ensures lo <= AverageImpact(bs).value <= hi
  {
    SumImpactBounds(bs, lo, hi);
    RoundDivExact(lo, |bs|);
    RoundDivExact(hi, |bs|);
    RoundDivMonotone(lo * |bs|, SumImpact(bs), |bs|);
    RoundDivMonotone(SumImpact(bs), hi * |bs|, |bs|);
  }

  // ---------------------------------------------------------------------------
  // The built-in catalog
  // ---------------------------------------------------------------------------

  /** The three bottlenecks the page shows, with their texts passed through
      `t` for the selected language. */
  function Catalog(language: Language): seq<Bottleneck>
  {
    var t := (key: string) => Translate(language, key);
    [ Bottleneck("1", "test", t("test"), High, LeadTimeKind, t("bottleneck1Description"), 35,
                 [t("bottleneck1Suggestion1"), t("bottleneck1Suggestion2"), t("bottleneck1Suggestion3")]),
      Bottleneck("2", "develop", t("develop"), Medium, WipKind, t("bottleneck2Description"), 25,
                 [t("bottleneck2Suggestion1"), t("bottleneck2Suggestion2")]),
      Bottleneck("3", "deploy", t("deploy"), Low, EfficiencyKind, t("bottleneck3Description"), 12,
                 [t("bottleneck3Suggestion1")]) ]
  }

  /** The severity cards for a list shaped like the catalog: one entry of
      each severity. */
  lemma CatalogShapeCounts(a: Bottleneck, b: Bottleneck, c: Bottleneck)
    requires a.severity == High && b.severity == Medium && c.severity == Low
    ensures SeverityCount([a, b, c], High) == 1
    ensures SeverityCount([a, b, c], Medium) == 1
    ensures SeverityCount([a, b, c], Low) == 1
  {
    assert [a, b, c][1..] == [b, c] && [b, c][1..] == [c] && [c][1..] == [];
    assert WithSeverity([c], High) == [] && WithSeverity([c], Medium) == [] && WithSeverity([c], Low) == [c];
    assert WithSeverity([b, c], High) == [] && WithSeverity([b, c], Medium) == [b] && WithSeverity([b, c], Low) == [c];
  }

  /** The average-impact card for a list with the catalog's impacts:
      (35 + 25 + 12) / 3 = 24. */
  lemma CatalogShapeAverage(a: Bottleneck, b: Bottleneck, c: Bottleneck)
    requires a.impact == 35 && b.impact == 25 && c.impact == 12
    ensures AverageImpact([a, b, c]) == Some(24)
  {
    assert [a, b, c][..2] == [a, b] && [a, b][..1] == [a] && [a][..0] == [];
    assert SumImpact([a]) == 35;
    assert SumImpact([a, b]) == 60;
    RoundDivExact(24, 3);
  }

  /** The summary cards for the catalog, in every language. */
  lemma CatalogSummary(language: Language)
    ensures SeverityCount(Catalog(language), High) == 1
    ensures SeverityCount(Catalog(language), Medium) == 1
    ensures SeverityCount(Catalog(language), Low) == 1
    ensures AverageImpact(Catalog(language)) == Some(24)
  {
    var c := Catalog(language);
    assert c == [c[0], c[1], c[2]];
    CatalogShapeCounts(c[0], c[1], c[2]);
    CatalogShapeAverage(c[0], c[1], c[2]);
  }

  // ---------------------------------------------------------------------------
  // Badge colours
  // ---------------------------------------------------------------------------

  /** getSeverityColor. */
  function SeverityColor(severity: Level): string
  {
    match severity
    case High => "destructive"
    case Medium => "default"
    case Low => "secondary"
  }

  /** Each severity has a badge variant of its own, and the page uses the same
      variants as the effort badges of the optimisation page. */
  lemma SeverityColorsDistinct(a: Level, b: Level)
    ensures SeverityColor(a) == SeverityColor(b) ==> a == b
    ensures SeverityColor(a) == Optimize.EffortColor(a)
  {
  }
}
