/** What the balance-sheet card shows (components/financial/balance-sheet.tsx):
    the sections split into an asset column and a liabilities-and-equity column,
    each column's total, and the check that the difference is zero. */
module BalanceSheetView {
  import opened Common
  import opened ReportsService

  /** `s.name.includes("ACTIVO")`. */
  predicate IsAssetSection(s: Section) {
    Contains(s.name, "ACTIVO")
  }

  /** `sections.filter((s) => s.name.includes("ACTIVO"))`. */
  function AssetSections(ss: seq<Section>): (r: seq<Section>)
    ensures forall s :: s in r ==> s in ss && IsAssetSection(s)
  {
    if ss == [] then []
    else AssetSections(ss[..|ss| - 1]) + (if IsAssetSection(ss[|ss| - 1]) then [ss[|ss| - 1]] else [])
  }

  /** `sections.filter((s) => !s.name.includes("ACTIVO"))`. */
  function OtherSections(ss: seq<Section>): (r: seq<Section>)
    ensures forall s :: s in r ==> s in ss && !IsAssetSection(s)
  {
    if ss == [] then []
    else OtherSections(ss[..|ss| - 1]) + (if IsAssetSection(ss[|ss| - 1]) then [] else [ss[|ss| - 1]])
  }

  lemma {:induction false} SubtotalSumAppend(a: seq<Section>, b: seq<Section>)
    ensures SubtotalSum(a + b) == SubtotalSum(a) + SubtotalSum(b)
    decreases |b|
  {
    if b == [] {
      assert a + b == a;
    } else {
      assert (a + b)[..|a + b| - 1] == a + b[..|b| - 1];
      SubtotalSumAppend(a, b[..|b| - 1]);
    }
  }

  /** Both filters keep the order: filtering a concatenation concatenates the filtered parts. */
  lemma FiltersAppend(a: seq<Section>, b: seq<Section>)
    ensures AssetSections(a + b) == AssetSections(a) + AssetSections(b)
    ensures OtherSections(a + b) == OtherSections(a) + OtherSections(b)
  {
    AssetSectionsAppend(a, b);
    OtherSectionsAppend(a, b);
  }

  lemma {:induction false} AssetSectionsAppend(a: seq<Section>, b: seq<Section>)
    ensures AssetSections(a + b) == AssetSections(a) + AssetSections(b)
    decreases |b|
  {
    if b == [] {
      assert a + b == a && AssetSections(a) + [] == AssetSections(a);
    } else {
      var b', x := b[..|b| - 1], b[|b| - 1];
      assert (a + b)[..|a + b| - 1] == a + b' && (a + b)[|a + b| - 1] == x;
      AssetSectionsAppend(a, b');
      var t := if IsAssetSection(x) then [x] else [];
      assert (AssetSections(a) + AssetSections(b')) + t == AssetSections(a) + (AssetSections(b') + t);
    }
  }

  lemma {:induction false} OtherSectionsAppend(a: seq<Section>, b: seq<Section>)
    ensures OtherSections(a + b) == OtherSections(a) + OtherSections(b)
    decreases |b|
  {
    if b == [] {
      assert a + b == a && OtherSections(a) + [] == OtherSections(a);
    } else {
      var b', x := b[..|b| - 1], b[|b| - 1];
      assert (a + b)[..|a + b| - 1] == a + b' && (a + b)[|a + b| - 1] == x;
      OtherSectionsAppend(a, b');
      var t := if IsAssetSection(x) then [] else [x];
      assert (OtherSections(a) + OtherSections(b')) + t == OtherSections(a) + (OtherSections(b') + t);
    }
  }

  /** The two columns partition the sections: every section lands in exactly one of them. */
  lemma {:induction false} ColumnsPartition(ss: seq<Section>)
    ensures multiset(AssetSections(ss)) + multiset(OtherSections(ss)) == multiset(ss)
    decreases |ss|
  {
    if ss != [] {
      var p, s := ss[..|ss| - 1], ss[|ss| - 1];
      ColumnsPartition(p);
      assert ss == p + [s];
    }
  }

  /** Together the two column totals are the sum of all subtotals. */
  lemma {:induction false} ColumnsTotal(ss: seq<Section>)
    ensures SubtotalSum(AssetSections(ss)) + SubtotalSum(OtherSections(ss)) == SubtotalSum(ss)
    decreases |ss|
  {
    if ss != [] {
      var p, s := ss[..|ss| - 1], ss[|ss| - 1];
      ColumnsTotal(p);
      var a, o := AssetSections(p), OtherSections(p);
      assert SubtotalSum([s]) == s.subtotal by {
        assert [s][..0] == [];
      }
      if IsAssetSection(s) {
        assert o + [] == o && AssetSections(ss) == a + [s] && OtherSections(ss) == o;
        SubtotalSumAppend(a, [s]);
      } else {
        assert a + [] == a && AssetSections(ss) == a && OtherSections(ss) == o + [s];
        SubtotalSumAppend(o, [s]);
      }
    }
  }

  datatype SheetView =
    | NoData
    | Sheet(periodName: string, assets: seq<Section>, liabilitiesEquity: seq<Section>,
            totalAssets: int, totalLiabilitiesEquity: int, difference: int, balanced: bool)

  /** The card for a statement. `balanced` is the colour of the difference:
      `Math.abs(difference) < 0.01`, which in cents means no difference. */
  function RenderBalanceSheet(data: Option<Statement>): (v: SheetView)
    ensures v.NoData? <==> data.None? || data.value.sections == []
    ensures v.Sheet? ==>
      && v.assets == AssetSections(data.value.sections)
      && v.liabilitiesEquity == OtherSections(data.value.sections)
      && v.totalAssets == SubtotalSum(v.assets)
      && v.totalLiabilitiesEquity == SubtotalSum(v.liabilitiesEquity)
      && v.difference == v.totalAssets - v.totalLiabilitiesEquity
      && (v.balanced <==> v.totalAssets == v.totalLiabilitiesEquity)
  {
    if data.None? || data.value.sections == [] then NoData
    else
      var ss := data.value.sections;
      var assets := AssetSections(ss);
      var rest := OtherSections(ss);
      var totalAssets := SubtotalSum(assets);
      var totalLiabilitiesEquity := SubtotalSum(rest);
      Sheet(data.value.periodName, assets, rest, totalAssets, totalLiabilitiesEquity,
            totalAssets - totalLiabilitiesEquity, Abs(totalAssets - totalLiabilitiesEquity) < 1)
  }

  /** The two column totals add up to the sum of all section subtotals. */
  lemma SheetTotals(data: Option<Statement>)
    requires RenderBalanceSheet(data).Sheet?
    ensures var v := RenderBalanceSheet(data);
      v.totalAssets + v.totalLiabilitiesEquity == SubtotalSum(data.value.sections)
  {
    ColumnsTotal(data.value.sections);
  }
}
