/**
 * The "Our Markets" section: the category filter over the asset catalog, the
 * guard that keeps the selected asset inside the filtered list, the lookup of
 * the selected asset's record, the chart series with its capped shadow band,
 * the padded y-axis maximum and its ticks, and the colour of the change
 * figure. The selection itself is a `MarketSelector` object whose click
 * handlers each run the guard as one atomic step.
 */
module Markets {
  import opened Common
  import opened JsText
  import opened Catalog

  const MostTraded: string := "most-traded"

  /** The y-axis tick candidates, ascending. */
  const AxisTicks: seq<int> := [0, 20, 40, 60, 80, 100]

  /** A plotted point: the table point with every field kept, plus the shadow-band value. */
  datatype PlotPoint = PlotPoint(point: ChartPoint, secondaryValue: real)

  /** The flat two-point series that replaces a series of fewer than two points. */
  const FallbackSeries: seq<PlotPoint> := [
    PlotPoint(ChartPoint("Start", 50.0, None, None), 37.5),
    PlotPoint(ChartPoint("End", 50.0, None, None), 37.5)
  ]

  /** `catalog.slice(k).filter(asset => asset.category === category)`. */
  function FilterFrom(catalog: seq<MarketAsset>, category: string, k: nat): seq<MarketAsset>
    requires k <= |catalog|
    decreases |catalog| - k
  {
    if k == |catalog| then []
    else (if catalog[k].category == category then [catalog[k]] else []) + FilterFrom(catalog, category, k + 1)
  }

  /** The filter keeps exactly the tagged entries of `catalog[k..]`, each as often as it occurs there. */
  lemma {:induction false} FilterFromCounts(catalog: seq<MarketAsset>, category: string, k: nat)
    requires k <= |catalog|
    ensures var r := FilterFrom(catalog, category, k);
      && |r| <= |catalog| - k
      && (forall a: MarketAsset :: multiset(r)[a] == if a.category == category then multiset(catalog[k..])[a] else 0)
    decreases |catalog| - k
  {
    if k < |catalog| {
      FilterFromCounts(catalog, category, k + 1);
      assert multiset(catalog[k..]) == multiset{catalog[k]} + multiset(catalog[k + 1..]) by {
        assert catalog[k..] == [catalog[k]] + catalog[k + 1..];
      }
    }
  }

  lemma FilterFromContents(catalog: seq<MarketAsset>, category: string, k: nat)
    requires k <= |catalog|
    ensures var r := FilterFrom(catalog, category, k);
      && |r| <= |catalog| - k
      && (forall a :: a in r <==> a in catalog[k..] && a.category == category)
      && (forall a: MarketAsset :: multiset(r)[a] == if a.category == category then multiset(catalog[k..])[a] else 0)
  {
    FilterFromCounts(catalog, category, k);
    var r := FilterFrom(catalog, category, k);
    forall a | true
      ensures a in r <==> a in catalog[k..] && a.category == category
    {
      assert a in r <==> multiset(r)[a] > 0;
      assert a in catalog[k..] <==> multiset(catalog[k..])[a] > 0;
    }
  }


  /** `catalog.filter(asset => asset.category === category)`. */
  function FilterByCategory(catalog: seq<MarketAsset>, category: string): seq<MarketAsset>
  {
    FilterFrom(catalog, category, 0)
  }

  /** `a` is `b` with some elements left out, the rest in their order. */
  predicate Subsequence<T(==)>(a: seq<T>, b: seq<T>)
    decreases |b|
  {
    if a == [] then true
    else if b == [] then false
    else if a[0] == b[0] then Subsequence(a[1..], b[1..])
    else Subsequence(a, b[1..])
  }

  /** The filtered list keeps catalog order. */
  lemma {:induction false} FilterKeepsOrder(catalog: seq<MarketAsset>, category: string, k: nat)
    requires k <= |catalog|
    ensures Subsequence(FilterFrom(catalog, category, k), catalog[k..])
    decreases |catalog| - k
  {
    if k < |catalog| {
      FilterKeepsOrder(catalog, category, k + 1);
      var rest := FilterFrom(catalog, category, k + 1);
      assert catalog[k..][1..] == catalog[k + 1..];
      if catalog[k].category == category {
        assert ([catalog[k]] + rest)[1..] == rest;
      } else {
        assert [] + rest == rest;
        SubsequenceDropHead(rest, catalog[k..]);
      }
    }
  }

  /** Adding an element in front of the longer list keeps a subsequence. */
  lemma {:induction false} SubsequenceDropHead<T>(a: seq<T>, b: seq<T>)
    requires b != [] && Subsequence(a, b[1..])
    ensures Subsequence(a, b)
    decreases |b|, 0
  {
    if a != [] && a[0] == b[0] {
      SubsequenceTail(a, b[1..]);
    }
  }

  /** Leaving out the first element of a subsequence keeps a subsequence. */
  lemma {:induction false} SubsequenceTail<T>(a: seq<T>, c: seq<T>)
    requires a != [] && Subsequence(a, c)
    ensures Subsequence(a[1..], c)
    decreases |c|, 1
  {
    if c != [] {
      if a[0] == c[0] {
        SubsequenceDropHead(a[1..], c);
      } else {
        SubsequenceTail(a, c[1..]);
        SubsequenceDropHead(a[1..], c);
      }
    }
  }

  /** The visible asset list of a category tab. */
  function FilterAssets(catalog: seq<MarketAsset>, category: string): (r: seq<MarketAsset>)
  {
    if category == MostTraded then catalog[..MinInt(3, |catalog|)]
    else FilterByCategory(catalog, category)
  }

  /** "Most traded" is the first three catalog entries in catalog order, whatever their tags. */
  lemma MostTradedIsFirstThree(catalog: seq<MarketAsset>)
    ensures var r := FilterAssets(catalog, MostTraded);
      && |r| == MinInt(3, |catalog|)
      && (forall i :: 0 <= i < |r| ==> r[i] == catalog[i])
  {
  }

  /** Any other tab lists exactly the entries carrying that tag, with their multiplicities, in catalog order. */
  lemma OtherCategoryIsTagFilter(catalog: seq<MarketAsset>, category: string)
    requires category != MostTraded
    ensures var r := FilterAssets(catalog, category);
      && (forall a :: a in r <==> a in catalog && a.category == category)
      && (forall a: MarketAsset :: multiset(r)[a] == if a.category == category then multiset(catalog)[a] else 0)
      && Subsequence(r, catalog)
  {
    FilterFromContents(catalog, category, 0);
    FilterKeepsOrder(catalog, category, 0);
    assert catalog[0..] == catalog;
  }

  /** `filteredAssets.some(asset => asset.id === id)`. */
  predicate HasId(assets: seq<MarketAsset>, id: string)
  {
    exists i :: 0 <= i < |assets| && assets[i].id == id
  }

  /** The selection invariant: the selected id is listed, or nothing is listed. */
  predicate SelectionGuarded(filtered: seq<MarketAsset>, selected: string)
  {
    HasId(filtered, selected) || filtered == []
  }

  /** The effect that re-selects the first listed asset when the selection is not listed. */
  function Guard(filtered: seq<MarketAsset>, selected: string): (r: string)
    ensures HasId(filtered, selected) || filtered == [] ==> r == selected
    ensures !HasId(filtered, selected) && filtered != [] ==> r == filtered[0].id
    ensures SelectionGuarded(filtered, r)
  {
    if !HasId(filtered, selected) && |filtered| > 0 then filtered[0].id else selected
  }

  /** Running the guard a second time changes nothing, so the effect settles after one step. */
  lemma GuardIdempotent(filtered: seq<MarketAsset>, selected: string)
    ensures Guard(filtered, Guard(filtered, selected)) == Guard(filtered, selected)
  {
  }

  /** `catalog.findIndex(asset => asset.id === id)`, searching from `from`. */
  function IndexOfId(catalog: seq<MarketAsset>, id: string, from: nat): (r: Option<nat>)
    ensures r.Some? ==> from <= r.value < |catalog| && catalog[r.value].id == id
    ensures r.Some? ==> forall j :: from <= j < r.value ==> catalog[j].id != id
    ensures r.None? ==> forall j :: from <= j < |catalog| ==> catalog[j].id != id
    decreases |catalog| - from
  {
    if from >= |catalog| then None
    else if catalog[from].id == id then Some(from)
    else IndexOfId(catalog, id, from + 1)
  }

  /** `catalog.find(asset => asset.id === id)`: the first entry with that id. */
  function FindById(catalog: seq<MarketAsset>, id: string): (r: Option<MarketAsset>)
    ensures r.Some? <==> HasId(catalog, id)
    ensures r.Some? ==> exists i :: 0 <= i < |catalog| && catalog[i] == r.value && r.value.id == id
                          && forall j :: 0 <= j < i ==> catalog[j].id != id
  {
    match IndexOfId(catalog, id, 0)
    case Some(i) => Some(catalog[i])
    case None => None
  }

  /** `selectedAssetData`: the entry with the selected id, or the first catalog entry when none has it. */
  function SelectedAssetData(catalog: seq<MarketAsset>, id: string): (r: MarketAsset)
    requires catalog != []
    ensures r in catalog
    ensures HasId(catalog, id) ==> r.id == id
    ensures !HasId(catalog, id) ==> r == catalog[0]
  {
    match FindById(catalog, id)
    case Some(a) => a
    case None => catalog[0]
  }

  /** `Math.max(...values)`. */
  function MaxOf(values: seq<real>): (r: real)
    requires values != []
    ensures r in values
    ensures forall i :: 0 <= i < |values| ==> values[i] <= r
  {
    if |values| == 1 then values[0]
    else
      var m := MaxOf(values[1..]);
      assert forall i :: 1 <= i < |values| ==> values[i] == values[1..][i - 1];
      if values[0] >= m then values[0] else m
  }

  /** The value of every plotted point. */
  function PlotValues(chart: seq<PlotPoint>): (r: seq<real>)
    ensures |r| == |chart|
    ensures forall i :: 0 <= i < |chart| ==> r[i] == chart[i].point.value
  {
    seq(|chart|, (i: int) requires 0 <= i < |chart| => chart[i].point.value)
  }

  /** `chartData`: the flat fallback for fewer than two points, otherwise every point kept with its shadow value. */
  function ChartData(data: seq<ChartPoint>): (r: seq<PlotPoint>)
    ensures |data| < 2 ==> r == FallbackSeries
    ensures |data| >= 2 ==> |r| == |data|
    ensures |data| >= 2 ==> forall i :: 0 <= i < |r| ==> r[i].point == data[i]
    ensures |data| >= 2 ==> forall i :: 0 <= i < |r| ==>
      r[i].secondaryValue == Min(data[i].value * 0.75, MaxOf(SeriesValues(data)) * 0.9)
  {
    if |data| < 2 then FallbackSeries
    else
      var peak := MaxOf(SeriesValues(data));
      seq(|data|, (i: int) requires 0 <= i < |data| => PlotPoint(data[i], Min(data[i].value * 0.75, peak * 0.9)))
  }

  /** The fallback is exactly two points `Start`/`End` of equal value 50 with shadow 37.5. */
  lemma DegenerateSeriesFallback(data: seq<ChartPoint>)
    requires |data| < 2
    ensures var r := ChartData(data);
      && |r| == 2
      && r[0].point.month == "Start" && r[1].point.month == "End"
      && r[0].point.value == r[1].point.value == 50.0
      && r[0].secondaryValue == r[1].secondaryValue == 37.5
  {
  }

  /** The shadow band never exceeds three quarters of its point nor nine tenths of the plotted peak. */
  lemma SecondaryValueCapped(data: seq<ChartPoint>)
    ensures var r := ChartData(data);
      forall i :: 0 <= i < |r| ==>
        r[i].secondaryValue <= r[i].point.value * 0.75 && r[i].secondaryValue <= MaxOf(PlotValues(r)) * 0.9
  {
    var r := ChartData(data);
    if |data| >= 2 {
      assert PlotValues(r) == SeriesValues(data);
    } else {
      assert PlotValues(r) == [50.0, 50.0];
      assert MaxOf(PlotValues(r)) == 50.0;
    }
  }

  /** `maxValue`: 100 for an empty chart, else the least integer not below 110% of the peak. */
  function MaxValue(chart: seq<PlotPoint>): (r: int)
    ensures chart == [] ==> r == 100
    ensures chart != [] ==> MaxOf(PlotValues(chart)) * 1.1 <= r as real < MaxOf(PlotValues(chart)) * 1.1 + 1.0
  {
    if chart == [] then 100 else Ceil(MaxOf(PlotValues(chart)) * 1.1)
  }

  /** The axis maximum leaves headroom above every non-negative chart value. */
  lemma MaxValueHeadroom(chart: seq<PlotPoint>)
    requires forall i :: 0 <= i < |chart| ==> chart[i].point.value >= 0.0
    ensures forall i :: 0 <= i < |chart| ==> chart[i].point.value <= MaxValue(chart) as real
  {
    if chart != [] {
      var peak := MaxOf(PlotValues(chart));
      assert peak >= 0.0 by { assert PlotValues(chart)[0] <= peak; }
      assert peak <= peak * 1.1;
    }
  }

  /** A chart whose peak is 100 gets the axis maximum 110 (over the reals). */
  lemma MaxValueOfPeakHundred(chart: seq<PlotPoint>)
    requires chart != [] && MaxOf(PlotValues(chart)) == 100.0
    ensures MaxValue(chart) == 110
  {
  }

  /** `ticks.filter(t => t <= maxValue)`. */
  function TicksUpTo(ticks: seq<int>, maxValue: int): (r: seq<int>)
    ensures forall t :: t in r <==> t in ticks && t <= maxValue
    ensures (forall i :: 0 <= i < |ticks| ==> ticks[i] > maxValue) ==> r == []
  {
    if ticks == [] then []
    else if ticks[0] <= maxValue then [ticks[0]] + TicksUpTo(ticks[1..], maxValue)
    else TicksUpTo(ticks[1..], maxValue)
  }

  /** The ticks shown on the y-axis. */
  function Ticks(maxValue: int): seq<int>
  {
    TicksUpTo(AxisTicks, maxValue)
  }

  predicate Ascending(s: seq<int>)
  {
    forall i, j :: 0 <= i < j < |s| ==> s[i] < s[j]
  }

  /** Filtering an ascending list by an upper bound keeps one of its prefixes. */
  lemma {:induction false} TicksUpToIsPrefix(ticks: seq<int>, maxValue: int)
    requires Ascending(ticks)
    ensures var r := TicksUpTo(ticks, maxValue); |r| <= |ticks| && r == ticks[..|r|]
  {
    if ticks != [] {
      TicksUpToIsPrefix(ticks[1..], maxValue);
      if ticks[0] > maxValue {
        assert forall i :: 1 <= i < |ticks| ==> ticks[i] > maxValue;
        assert forall i :: 0 <= i < |ticks[1..]| ==> ticks[1..][i] == ticks[i + 1];
      }
    }
  }

  /** The displayed ticks are those of 0,20,..,100 not above `maxValue`, as a prefix in ascending order. */
  lemma TicksAreLeadingCandidates(maxValue: int)
    ensures var r := Ticks(maxValue);
      && (forall t :: t in r <==> t in AxisTicks && t <= maxValue)
      && |r| <= |AxisTicks| && r == AxisTicks[..|r|]
  {
    TicksUpToIsPrefix(AxisTicks, maxValue);
  }

  /** The change figure is green when the asset is flagged positive or its percentage starts with `+`. */
  predicate ChangeIsGain(asset: MarketAsset)
  {
    asset.isPositive || StartsWith(asset.changePercent, "+")
  }

  /** In the catalog the colour rule agrees with the `isPositive` flag of every entry. */
  lemma CatalogChangeColourMatchesFlag()
    ensures forall i :: 0 <= i < |MarketAssets| ==> ChangeIsGain(MarketAssets[i]) == MarketAssets[i].isPositive
  {
    assert !StartsWith("-1.07%", "+") by { assert "-1.07%"[0] != "+"[0]; }
    assert !StartsWith("-1.29%", "+") by { assert "-1.29%"[0] != "+"[0]; }
  }

  /** The first three catalog assets are btc, eth and gold, of two different tags. */
  lemma MostTradedCatalog()
    ensures var r := FilterAssets(MarketAssets, MostTraded);
      |r| == 3 && r[0].id == "btc" && r[1].id == "eth" && r[2].id == "gold"
      && r[0].category == "cryptocurrencies" && r[2].category == "commodities"
  {
  }

  /** No catalog asset is tagged `etfs`, so that tab lists nothing. */
  lemma EtfsTabEmpty()
    ensures FilterAssets(MarketAssets, "etfs") == []
  {
    var c := "etfs";
    assert FilterFrom(MarketAssets, c, 8) == [];
    assert FilterFrom(MarketAssets, c, 7) == [];
    assert FilterFrom(MarketAssets, c, 6) == [];
    assert FilterFrom(MarketAssets, c, 5) == [];
    assert FilterFrom(MarketAssets, c, 4) == [];
    assert FilterFrom(MarketAssets, c, 3) == [];
    assert FilterFrom(MarketAssets, c, 2) == [];
    assert FilterFrom(MarketAssets, c, 1) == [];
  }

  /** The `commodities` tab lists gold, then crude oil. */
  lemma CommoditiesTab()
    ensures FilterAssets(MarketAssets, "commodities") == [Gold, Oil]
  {
    var c := "commodities";
    assert FilterFrom(MarketAssets, c, 8) == [];
    assert FilterFrom(MarketAssets, c, 7) == [];
    assert FilterFrom(MarketAssets, c, 6) == [];
    assert FilterFrom(MarketAssets, c, 5) == [];
    assert FilterFrom(MarketAssets, c, 4) == [];
    assert FilterFrom(MarketAssets, c, 3) == [Oil];
    assert FilterFrom(MarketAssets, c, 2) == [Gold, Oil];
    assert FilterFrom(MarketAssets, c, 1) == [Gold, Oil];
  }

  /** The initial selection, `gold` under "most traded", already satisfies the guard. */
  lemma InitialSelectionGuarded()
    ensures SelectionGuarded(FilterAssets(MarketAssets, MostTraded), "gold")
    ensures Guard(FilterAssets(MarketAssets, MostTraded), "gold") == "gold"
  {
    assert FilterAssets(MarketAssets, MostTraded)[2].id == "gold";
  }

  /** The section's selection state: category tab, selected asset and timeframe. */
  class MarketSelector {
    var selectedCategory: string
    var selectedAsset: string
    var selectedTimeframe: string

    ghost predicate Valid()
      reads this
    {
      SelectionGuarded(FilterAssets(MarketAssets, selectedCategory), selectedAsset)
    }

    constructor ()
      ensures Valid()
      ensures selectedCategory == MostTraded && selectedAsset == "gold" && selectedTimeframe == "1d"
    {
      selectedCategory := MostTraded;
      selectedAsset := "gold";
      selectedTimeframe := "1d";
      InitialSelectionGuarded();
    }

    /** `filteredAssets` for the current tab. */
    function FilteredAssets(): (r: seq<MarketAsset>)
      reads this
      ensures selectedCategory == MostTraded ==> r == MarketAssets[..3]
      ensures selectedCategory != MostTraded ==> forall a :: a in r <==> a in MarketAssets && a.category == selectedCategory
    {
      if selectedCategory == MostTraded then
        MostTradedIsFirstThree(MarketAssets);
        FilterAssets(MarketAssets, selectedCategory)
      else
        OtherCategoryIsTagFilter(MarketAssets, selectedCategory);
        FilterAssets(MarketAssets, selectedCategory)
    }

    /** A category tab click, followed by the guard. */
    method SelectCategory(category: string)
      modifies this
      ensures Valid()
      ensures selectedCategory == category
      ensures selectedAsset == Guard(FilterAssets(MarketAssets, category), old(selectedAsset))
      ensures selectedTimeframe == old(selectedTimeframe)
    {
      selectedCategory := category;
      selectedAsset := Guard(FilteredAssets(), selectedAsset);
    }

    /** An asset row click, followed by the guard (which keeps any listed asset). */
    method SelectAsset(id: string)
      modifies this
      ensures Valid()
      ensures selectedAsset == Guard(FilterAssets(MarketAssets, selectedCategory), id)
      ensures HasId(FilteredAssets(), id) ==> selectedAsset == id
      ensures selectedCategory == old(selectedCategory) && selectedTimeframe == old(selectedTimeframe)
    {
      selectedAsset := Guard(FilteredAssets(), id);
    }

    /** A timeframe button click. */
    method SelectTimeframe(timeframe: string)
      requires Valid()
      modifies this
      ensures Valid()
      ensures selectedTimeframe == timeframe
      ensures selectedCategory == old(selectedCategory) && selectedAsset == old(selectedAsset)
    {
      selectedTimeframe := timeframe;
    }

    /** `selectedAssetData`: the selected entry, or the first catalog entry when the id is unknown. */
    function SelectedAsset(): (r: MarketAsset)
      reads this
      ensures r in MarketAssets
      ensures HasId(MarketAssets, selectedAsset) ==> r.id == selectedAsset
      ensures !HasId(MarketAssets, selectedAsset) ==> r == MarketAssets[0]
    {
      SelectedAssetData(MarketAssets, selectedAsset)
    }

    /** `chartData` of the selected series: never the fallback, every stored point kept in order. */
    function Chart(random: nat -> real): (r: seq<PlotPoint>)
      reads this
      ensures var data := GetChartData(selectedAsset, selectedTimeframe, random);
        |r| == |data| && forall i :: 0 <= i < |r| ==> r[i].point == data[i]
    {
      ChartDataNeverDegenerate(selectedAsset, selectedTimeframe, random);
      ChartData(GetChartData(selectedAsset, selectedTimeframe, random))
    }

    /** The y-axis ticks: the candidates not above the chart's axis maximum. */
    function YAxisTicks(random: nat -> real): (r: seq<int>)
      reads this
      ensures forall t :: t in r <==> t in AxisTicks && t <= MaxValue(Chart(random))
    {
      Ticks(MaxValue(Chart(random)))
    }
  }
}
