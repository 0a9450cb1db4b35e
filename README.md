# Premier Markets homepage logic, modelled in Dafny

This project models the non-presentational logic of the Premier Markets
marketing homepage, a Next.js/React application written in TypeScript:

- **Our Markets** section: the category filter over the asset catalog, the guard that keeps the selected asset inside the current tab, the lookup of the selected asset's data, the chart series with its fallback and secondary line, the y-axis maximum and ticks, and the colour of the change figure.
- **Catalogs and `getChartData`**: the market categories, timeframes, assets, testimonials and their configuration, and the asset × timeframe table of chart series.
- **Testimonials** carousel: the Fisher–Yates shuffle done once at mount, paging with guarded next/previous buttons, the per-testimonial expand toggle, and the truncation of long reviews.
- **Daily Updates** section: the default video URL, the YouTube thumbnail derived from it, the article link, and the play-once state.
- **`cn`**: the class-name joiner.
- **Header and Dropdown**: the user-type switch, the mobile-menu flag, and the two "open label" slots. The dropdown's pointer events drive the slots through `onOpen`/`onClose`.

Form of the model:

- Pure code is written as datatypes, functions and lemmas.
- Component state that event handlers overwrite is written as a class with `modifies` clauses:
  - `Markets.MarketSelector`;
  - `Testimonials.Carousel`;
  - `DailyUpdates.VideoPanel`;
  - `Header.HeaderState`.
- The in-place shuffle (`Testimonials.ShuffleArray`) works on an `array`. It is proved against the specification function `Testimonials.Shuffled`.

`Math.random()` is a parameter `random: nat -> real` whose values lie in `[0, 1)`:

- a generated chart series draws `random(i)` for its point `i`;
- the shuffle draws `random(i)` at loop index `i`.

Every property holds for every such function.

Modules:

- `Common`: `Option`, `Floor`/`Ceil` over reals, `min`/`max`.
- `JsText`: the string built-ins the code relies on: `includes`, `indexOf`, `split(sep)[0]`, `split(sep)[1]`, `startsWith`, and `String(n)` for integers (exactly as JavaScript writes them below 2^53 in magnitude).
- `Catalog`, `Markets`, `Testimonials`, `DailyUpdates`, `ClassNames`, `Dropdown`, `Header`: one module per source file or concern.

The default cover image of the Daily Updates section is shown less often than one might expect:

- An absent `videoUrl` prop does not produce the default cover image. The destructuring default applies first, so an absent prop shows the thumbnail of the default video `dQw4w9WgXcQ`.
- Only an empty string reaches the `!videoUrl` branch, which returns the default cover (`DailyUpdates.EffectiveVideoUrl`, `DailyUpdates.DefaultVideoThumbnail`).

## Model

| member | source | states |
|---|---|---|
| Common.Ceil | pm-test/src/components/sections/OurMarkets.tsx:55 | `Math.ceil`: the result is the least integer not below `x`: `x <= r < x + 1` |
| Common.Floor | pm-test/src/components/sections/Testimonials.tsx:11 | `Math.floor`: `r <= x < r + 1` |
| JsText.IndexOfFrom | pm-test/src/components/sections/DailyUpdates.tsx:31-35 | the index found is an occurrence of the pattern with none before it from `from`; `None` means no occurrence at or after `from` |
| JsText.IndexOf | pm-test/src/components/sections/DailyUpdates.tsx:31-35 | `indexOf` from the start; `FirstOccurrence` pins it to the first occurrence |
| JsText.Includes | pm-test/src/components/sections/DailyUpdates.tsx:31-35 | `includes`; `IncludesIff` states it holds exactly when the pattern occurs somewhere |
| JsText.StartsWith | pm-test/src/components/sections/OurMarkets.tsx:124 | `startsWith`: the pattern is a prefix of the string |
| JsText.IncludesIff | pm-test/src/components/sections/DailyUpdates.tsx:31-34 | `includes` holds exactly when the pattern occurs at some index |
| JsText.SplitHead | pm-test/src/components/sections/DailyUpdates.tsx:33-35 | `split(sep)[0]` is a prefix of the string and contains no `sep` |
| JsText.SplitSecond | pm-test/src/components/sections/DailyUpdates.tsx:33-35 | `split(sep)[1]` is undefined exactly when `sep` does not occur; otherwise it contains no `sep` |
| JsText.SplitHeadAt | pm-test/src/components/sections/DailyUpdates.tsx:33-35 | `split(sep)[0]` is `s[..n]` when `sep` first occurs at `n`, or never occurs and `n` is the length |
| JsText.SplitSecondAt | pm-test/src/components/sections/DailyUpdates.tsx:33-35 | a first occurrence at `i` makes `split(sep)[1]` the text after it, cut at the next `sep` |
| JsText.NatToString | pm-test/src/utils/cn.ts:9 | `String(n)`: non-empty decimal digits whose value read left to right (`DigitsValue`) is `n`; the first digit is `0` only for `n = 0`; one digit exactly below 10 |
| JsText.DigitChar | pm-test/src/utils/cn.ts:9 | the digit character of `d` is a decimal digit whose value is `d` |
| JsText.IntToString | pm-test/src/utils/cn.ts:9 | `String(n)` for an integer: a leading `-` exactly when `n < 0`, then decimal digits whose value is `abs(n)` |
| JsText.SuffixOccurs | pm-test/src/components/sections/DailyUpdates.tsx:33 | an occurrence in the text after position `k` is an occurrence in the whole URL, `k` places further on |
| JsText.OccursWithin | pm-test/src/components/sections/DailyUpdates.tsx:31-33 | a pattern inside an occurring pattern occurs in the URL itself (the host and `v=` inside `youtube.com/watch?v=`) |
| JsText.CutEnd | pm-test/src/components/sections/DailyUpdates.tsx:33 | the first position at or after `k` where the text ends, `sep` occurs or `stop` stands: nothing of the kind lies before it |
| JsText.HeadThenHead | pm-test/src/components/sections/DailyUpdates.tsx:33 | `a.split(sep)[0].split(stop)[0]` is `a` up to the first end, `sep` or `stop` |
| JsText.SuffixHeadThenHead | pm-test/src/components/sections/DailyUpdates.tsx:33-35 | the same two cuts applied to the text after position `k` end at `CutEnd` from `k` |
| Catalog.Generated | pm-test/src/constants/index.ts:630-635 | `Array.from({length: n}, …)`: exactly `n` points; point `i` has label `i` for the timeframe and value `low + random(i) * span` |
| Catalog.RandomUnit | pm-test/src/constants/index.ts:630-661 | every value `Math.random()` may return lies in `[0, 1)`; the range lemmas assume exactly this |
| Catalog.HourLabel | pm-test/src/constants/index.ts:630-631 | the label `${h}:00`: digits that read as `h`, then `:00` |
| Catalog.MinuteLabel | pm-test/src/constants/index.ts:632-635 | the label `${m}m`: digits that read as `m`, then `m` |
| Catalog.BucketLabel | pm-test/src/constants/index.ts:630-654 | the label of bucket `i` per timeframe (`i*4`, `i`, `i*5`, `i*15`, `i*30`, or a weekday); `Generated` uses it point by point |
| Catalog.GeneratedLength | pm-test/src/constants/index.ts:630-654 | the `length:` of each generated series; `GeneratedLengthIsBucketCount` and `SeriesLengthByTimeframe` state it |
| Catalog.BaseSeries | pm-test/src/constants/index.ts:619-656 | the keyed table lookup; `GoldDayIsFixed`, `GoldWeekIsFixed`, `SeriesLengthByTimeframe` and `ChartValueRanges` state its entries |
| Catalog.GetChartData | pm-test/src/constants/index.ts:618-665 | the table entry, or the default series when none; `UnknownPairYieldsDefault`, `ChartDataNeverDegenerate` and `GeneratedLengthIsBucketCount` state what it returns |
| Catalog.DefaultData | pm-test/src/constants/index.ts:659-662 | the default series has twelve points, one per month |
| Catalog.SeriesValues | pm-test/src/components/sections/OurMarkets.tsx:48 | `data.map(p => p.value)`: same length, value by value |
| Catalog.SeriesLengthByTimeframe | pm-test/src/constants/index.ts:620-655 | for gold and btc, every known timeframe gives its bucket count: 1h → 24, 4h → 6, 1m → 60, 5m → 12, 15m → 4, 30m → 2, 1d and 1w → 7 |
| Catalog.GeneratedLengthIsBucketCount | pm-test/src/constants/index.ts:630-654 | a timeframe with a bucket count is one of `TIMEFRAMES` and generates exactly that many points |
| Catalog.UnknownPairYieldsDefault | pm-test/src/constants/index.ts:664 | an unknown asset id or timeframe falls back to the twelve-month default series |
| Catalog.GoldDayIsFixed | pm-test/src/constants/index.ts:621-629 | gold on 1d is the fixed series with values 20, 35, 45, 30, 50, 60, 70; only the first point carries a date (`28 Okt 2023`) and a price (`$1,425.00`) |
| Catalog.GoldWeekIsFixed | pm-test/src/constants/index.ts:636-644 | gold on 1w is the fixed Mon…Sun series with values 20, 35, 45, 30, 50, 60, 70 |
| Catalog.ChartValueRanges | pm-test/src/constants/index.ts:618-665 | every point of every series lies in [20, 100); for btc with a known timeframe, in [30, 100) |
| Catalog.ChartDataNeverDegenerate | pm-test/src/constants/index.ts:618-665 | every series `getChartData` returns has at least two points, so the chart fallback is never used with the shipped table |
| Catalog.AssetIdsDistinct | pm-test/src/constants/index.ts:477-614 | the asset ids of the catalog are pairwise distinct, so `find` by id is unambiguous |
| Catalog.TestimonialCount | pm-test/src/constants/index.ts:274-338 | the testimonial catalog has nine entries |
| Markets.FilterFromCounts | pm-test/src/components/sections/OurMarkets.tsx:24 | filtering by tag keeps each asset of that category as many times as it occurs, and drops every other asset |
| Markets.FilterFromContents | pm-test/src/components/sections/OurMarkets.tsx:24 | an asset is in the filtered list exactly when it is in the catalog and has the selected category; also counts and length |
| Markets.FilterByCategory | pm-test/src/components/sections/OurMarkets.tsx:24 | `filter(asset => asset.category === c)`; `FilterFromCounts`, `FilterFromContents` and `FilterKeepsOrder` state its result |
| Markets.FilterFrom | pm-test/src/components/sections/OurMarkets.tsx:24 | the filter over the catalog from index `k`; `FilterFromCounts` and `FilterFromContents` state its result |
| Markets.FilterAssets | pm-test/src/components/sections/OurMarkets.tsx:20-25 | the tab's list; `MostTradedIsFirstThree` and `OtherCategoryIsTagFilter` state both branches |
| Markets.FilterKeepsOrder | pm-test/src/components/sections/OurMarkets.tsx:24 | the filtered list is a subsequence of the catalog: catalog order is preserved |
| Markets.MostTradedIsFirstThree | pm-test/src/components/sections/OurMarkets.tsx:21-22 | the most-traded tab is the first `min(3, n)` assets of the catalog |
| Markets.OtherCategoryIsTagFilter | pm-test/src/components/sections/OurMarkets.tsx:24 | any other tab holds exactly the assets of that category, in catalog order |
| Markets.Guard | pm-test/src/components/sections/OurMarkets.tsx:27-32 | a listed selection, or any selection over an empty tab, is kept; otherwise the tab's first asset is selected; afterwards the selection is listed or the tab is empty |
| Markets.GuardIdempotent | pm-test/src/components/sections/OurMarkets.tsx:27-32 | running the guard again changes nothing, so the effect settles after one re-render |
| Markets.IndexOfId | pm-test/src/components/sections/OurMarkets.tsx:35 | the first index at or after `from` whose id matches, or `None` when there is none |
| Markets.FindById | pm-test/src/components/sections/OurMarkets.tsx:35 | `find` succeeds exactly when some asset has the id, and returns a catalog asset with that id |
| Markets.SelectedAssetData | pm-test/src/components/sections/OurMarkets.tsx:34-36 | the asset with the selected id, or the first catalog asset when no asset has it; always a catalog asset |
| Markets.MaxOf | pm-test/src/components/sections/OurMarkets.tsx:48-54 | `Math.max(...values)` of a non-empty list is one of the values and bounds all of them |
| Markets.PlotValues | pm-test/src/components/sections/OurMarkets.tsx:54 | `chartData.map(point => point.value)`: same length, value by value |
| Markets.ChartData | pm-test/src/components/sections/OurMarkets.tsx:38-50 | fewer than two points give the Start/End fallback at 50 and 37.5; otherwise every point is kept in order with `secondaryValue = min(0.75·value, 0.9·max)` |
| Markets.DegenerateSeriesFallback | pm-test/src/components/sections/OurMarkets.tsx:40-45 | the fallback holds two points, both at value 50 and secondary 37.5, labelled Start and End |
| Markets.SecondaryValueCapped | pm-test/src/components/sections/OurMarkets.tsx:46-49 | each secondary value is at most three quarters of its own value and at most 90% of the series peak |
| Markets.MaxValue | pm-test/src/components/sections/OurMarkets.tsx:52-56 | 100 for an empty chart; otherwise the ceiling of 1.1 × the peak |
| Markets.MaxValueHeadroom | pm-test/src/components/sections/OurMarkets.tsx:52-56 | with non-negative values, no point rises above the y-axis maximum |
| Markets.MaxValueOfPeakHundred | pm-test/src/components/sections/OurMarkets.tsx:55 | a peak of 100 gives a y-axis maximum of 110 |
| Markets.TicksUpTo | pm-test/src/components/sections/OurMarkets.tsx:275 | a candidate tick is shown exactly when it does not exceed the maximum; none is shown when all exceed it |
| Markets.TicksUpToIsPrefix | pm-test/src/components/sections/OurMarkets.tsx:275 | over ascending candidates the shown ticks are a prefix of them |
| Markets.Ticks | pm-test/src/components/sections/OurMarkets.tsx:275 | the axis ticks for a maximum; `TicksAreLeadingCandidates` states them |
| Markets.ChangeIsGain | pm-test/src/components/sections/OurMarkets.tsx:124 | the change figure is green when `isPositive` or the percentage starts with `+`; `CatalogChangeColourMatchesFlag` states it for the catalog |
| Markets.TicksAreLeadingCandidates | pm-test/src/components/sections/OurMarkets.tsx:275 | the ticks are a prefix of 0, 20, …, 100, each at most the maximum, and there are at most six |
| Markets.CatalogChangeColourMatchesFlag | pm-test/src/components/sections/OurMarkets.tsx:124 | for every shipped asset the green/red choice (`isPositive` or a leading `+`) agrees with `isPositive` |
| Markets.MostTradedCatalog | pm-test/src/components/sections/OurMarkets.tsx:21-22 | the most-traded tab shows btc, eth and gold |
| Markets.EtfsTabEmpty | pm-test/src/components/sections/OurMarkets.tsx:24 | no shipped asset is an ETF, so that tab is empty and the guard keeps the old selection |
| Markets.CommoditiesTab | pm-test/src/components/sections/OurMarkets.tsx:24 | the commodities tab shows gold then oil |
| Markets.InitialSelectionGuarded | pm-test/src/components/sections/OurMarkets.tsx:13-32 | the initial selection, gold on the most-traded tab, is already listed, so the guard leaves it |
| Markets.MarketSelector.constructor | pm-test/src/components/sections/OurMarkets.tsx:13-15 | initial state: most-traded, gold, 1d; the selection is listed |
| Markets.MarketSelector.SelectCategory | pm-test/src/components/sections/OurMarkets.tsx:74 | sets the category, then applies the guard of lines 27-32 to the old selection; timeframe unchanged; the selection stays listed |
| Markets.MarketSelector.SelectAsset | pm-test/src/components/sections/OurMarkets.tsx:92 | sets the clicked asset, then applies the guard of lines 27-32: a listed asset becomes the selection; category and timeframe unchanged |
| Markets.MarketSelector.SelectTimeframe | pm-test/src/components/sections/OurMarkets.tsx:352 | sets the timeframe and nothing else |
| Markets.MarketSelector.FilteredAssets | pm-test/src/components/sections/OurMarkets.tsx:20-25 | the current tab's list: the first three entries on most-traded, else exactly the entries tagged with the tab |
| Markets.MarketSelector.SelectedAsset | pm-test/src/components/sections/OurMarkets.tsx:34-36 | a catalog entry: the one with the selected id, or the first entry when none has it |
| Markets.MarketSelector.Chart | pm-test/src/components/sections/OurMarkets.tsx:38-50 | the chart of the selected series keeps every stored point in order and is never the fallback pair |
| Markets.MarketSelector.YAxisTicks | pm-test/src/components/sections/OurMarkets.tsx:275 | a candidate tick is shown exactly when it is at most the chart's axis maximum |
| Testimonials.SwapIndex | pm-test/src/components/sections/Testimonials.tsx:11 | `Math.floor(random * (i + 1))` is an index in `[0, i]` |
| Testimonials.Swap | pm-test/src/components/sections/Testimonials.tsx:12 | the destructuring swap exchanges positions `i` and `j` and keeps every other element |
| Testimonials.SwapPermutes | pm-test/src/components/sections/Testimonials.tsx:12 | a swap keeps the multiset of elements |
| Testimonials.ShuffledDownPermutes | pm-test/src/components/sections/Testimonials.tsx:8-15 | every outcome of the shuffle has the input's length and multiset: it is a permutation |
| Testimonials.Shuffled | pm-test/src/components/sections/Testimonials.tsx:8-15 | the complete Fisher–Yates pass; `ShuffledDownPermutes` makes it a permutation and `ShuffleArray` is proved equal to it |
| Testimonials.ShuffleArray | pm-test/src/components/sections/Testimonials.tsx:8-15 | the loop over a copy computes exactly `Shuffled(items, random)`, a permutation of the input |
| Testimonials.TotalPages | pm-test/src/components/sections/Testimonials.tsx:27 | `Math.ceil(n / k)`: the least page count whose pages hold all `n` items |
| Testimonials.PageSlice | pm-test/src/components/sections/Testimonials.tsx:28-30 | `slice(p*k, p*k + k)`: at most `k` items, item `t` of page `p` being item `p*k + t` |
| Testimonials.CanGoNext | pm-test/src/components/sections/Testimonials.tsx:32 | `page < totalPages - 1`; `NavigationStaysInRange` states its use |
| Testimonials.CanGoPrev | pm-test/src/components/sections/Testimonials.tsx:33 | `page > 0`; `NavigationStaysInRange` states its use |
| Testimonials.NextPage | pm-test/src/components/sections/Testimonials.tsx:35-39 | the page moves forward by at most one and stays below the page count |
| Testimonials.PrevPage | pm-test/src/components/sections/Testimonials.tsx:41-45 | the page moves back by exactly one unless it is already 0 |
| Testimonials.PageHoldsItem | pm-test/src/components/sections/Testimonials.tsx:27-30 | item `idx` appears on page `idx / k` at position `idx % k`, and that page exists |
| Testimonials.PageSizes | pm-test/src/components/sections/Testimonials.tsx:27-30 | pages before the last are full; the last holds `n - (pages - 1)·k` items, between 1 and `k` |
| Testimonials.NavigationStaysInRange | pm-test/src/components/sections/Testimonials.tsx:32-45 | next and previous move by one only when enabled and keep the page within `[0, max(0, pages - 1)]` |
| Testimonials.Toggle | pm-test/src/components/sections/Testimonials.tsx:47-52 | the toggled id flips (a missing entry counts as collapsed); every other entry is unchanged |
| Testimonials.IsExpanded | pm-test/src/components/sections/Testimonials.tsx:50 | `!!prev[id]`: a missing entry reads as collapsed; `Toggle` states how it flips |
| Testimonials.ToggleTwiceRestores | pm-test/src/components/sections/Testimonials.tsx:47-52 | toggling the same id twice restores every testimonial's expanded state |
| Testimonials.DisplayText | pm-test/src/components/sections/Testimonials.tsx:158-160 | an expanded or short review is shown whole; a long collapsed one is shown as its first `maxLength` characters plus `...` |
| Testimonials.HasToggle | pm-test/src/components/sections/Testimonials.tsx:162-169 | the read-more button exists exactly for reviews longer than `maxLength`; `ShortReviewUnaffected` states it |
| Testimonials.CollapsedTextShape | pm-test/src/components/sections/Testimonials.tsx:158-160 | collapsed text is at most `maxLength + 3` long and is the review, or a prefix of it followed by `...` |
| Testimonials.ShortReviewUnaffected | pm-test/src/components/sections/Testimonials.tsx:158-162 | a review with no Read-more button is shown whole whatever its flag |
| Testimonials.CatalogPaging | pm-test/src/constants/index.ts:274-344 | nine testimonials at nine per page make one page with both buttons disabled; at four per page, three pages with one on the last |
| Testimonials.Carousel.constructor | pm-test/src/components/sections/Testimonials.tsx:18-25 | mounting shuffles once (a permutation of the catalog), starts at page 0 with nothing expanded |
| Testimonials.Carousel.HandleNext | pm-test/src/components/sections/Testimonials.tsx:35-39 | advances one page only when a later page exists |
| Testimonials.Carousel.HandlePrev | pm-test/src/components/sections/Testimonials.tsx:41-45 | goes back one page only when not on the first |
| Testimonials.Carousel.ToggleExpand | pm-test/src/components/sections/Testimonials.tsx:47-52 | the flags become `Toggle(old flags, id)` |
| Testimonials.Carousel.CurrentTestimonials | pm-test/src/components/sections/Testimonials.tsx:28-30 | at most `itemsPerPage` testimonials, item `t` being shuffled item `page*itemsPerPage + t` |
| Testimonials.Carousel.Displayed | pm-test/src/components/sections/Testimonials.tsx:158-160 | an expanded or short review in full; a collapsed long one as its first `maxLength` characters plus `...` |
| DailyUpdates.EffectiveVideoUrl | pm-test/src/components/sections/DailyUpdates.tsx:14-16 | an absent prop becomes the default watch URL; a given one, even empty, is kept |
| DailyUpdates.VideoId | pm-test/src/components/sections/DailyUpdates.tsx:32-36 | a URL holding either pattern has an id and one holding neither has none; a watch-URL id has no `&` and no `v=`; a short-link id has no `?` |
| DailyUpdates.GetThumbnailUrl | pm-test/src/components/sections/DailyUpdates.tsx:26-44 | an empty or non-YouTube URL gives the default cover; a YouTube URL with a non-empty id gives that id's thumbnail, and any result other than the cover is such a thumbnail |
| DailyUpdates.ThumbnailFor | pm-test/src/components/sections/DailyUpdates.tsx:39 | the `maxresdefault` image URL of an id; `ThumbnailDeterminesId` reads the id back from it |
| DailyUpdates.PatternParts | pm-test/src/components/sections/DailyUpdates.tsx:31-35 | `youtube.com/watch?v=` holds `youtube.com` and `v=`; `youtu.be/` holds `youtu.be` |
| DailyUpdates.RecognisedPatterns | pm-test/src/components/sections/DailyUpdates.tsx:31-35 | a URL holding either pattern passes the host test, and a watch URL holds `v=` |
| DailyUpdates.WatchUrlId | pm-test/src/components/sections/DailyUpdates.tsx:31-43 | for every URL holding `youtube.com/watch?v=`, also one holding `youtu.be/`: the id is the text from the first `v=` to the next `v=`, `&` or the end, and the thumbnail is that id's, or the cover when the id is empty |
| DailyUpdates.ShortUrlId | pm-test/src/components/sections/DailyUpdates.tsx:31-43 | for every URL holding `youtu.be/` but not the watch pattern: the id is the text from the first `youtu.be/` to the next `youtu.be/`, `?` or the end, and the thumbnail is that id's, or the cover when the id is empty |
| DailyUpdates.WatchSplit | pm-test/src/components/sections/DailyUpdates.tsx:31-33 | any URL starting `https://www.youtube.com/watch?v=` passes both checks and its `v=` split reads what follows the prefix |
| DailyUpdates.IdBeforeAmpersand | pm-test/src/components/sections/DailyUpdates.tsx:33 | a video id followed by nothing or by `&…` survives the `v=` and `&` splits whole |
| DailyUpdates.WatchUrlThumbnail | pm-test/src/components/sections/DailyUpdates.tsx:31-39 | `https://www.youtube.com/watch?v=<id>`, with or without further `&` parameters, yields the `maxresdefault` thumbnail of `<id>` |
| DailyUpdates.ShortSplit | pm-test/src/components/sections/DailyUpdates.tsx:31-35 | a `https://youtu.be/` URL with no `?` fails the watch test, passes the short-link test, and its split reads what follows the prefix |
| DailyUpdates.IdBeforeQuery | pm-test/src/components/sections/DailyUpdates.tsx:35 | a video id survives the `youtu.be/` and `?` splits whole |
| DailyUpdates.ShortUrlThumbnail | pm-test/src/components/sections/DailyUpdates.tsx:34-39 | `https://youtu.be/<id>` yields the thumbnail of `<id>` |
| DailyUpdates.DefaultVideoThumbnail | pm-test/src/components/sections/DailyUpdates.tsx:14-39 | with no prop the thumbnail is that of video `dQw4w9WgXcQ` |
| DailyUpdates.EmptyWatchIdFallsBack | pm-test/src/components/sections/DailyUpdates.tsx:38-43 | a watch URL with an empty `v=` value falls through to the default cover |
| DailyUpdates.ThumbnailDeterminesId | pm-test/src/components/sections/DailyUpdates.tsx:39 | the id can be read back from the thumbnail URL, so distinct ids give distinct thumbnails |
| DailyUpdates.ArticleUrl | pm-test/src/components/sections/DailyUpdates.tsx:19-20 | the link is `/articles/` followed by exactly the article id |
| DailyUpdates.View | pm-test/src/components/sections/DailyUpdates.tsx:100-130 | before play the thumbnail of the URL is shown; after play the player, when the URL is non-empty |
| DailyUpdates.VideoPanel.constructor | pm-test/src/components/sections/DailyUpdates.tsx:14-17 | the URL is the effective prop and playback has not started |
| DailyUpdates.VideoPanel.HandlePlay | pm-test/src/components/sections/DailyUpdates.tsx:22-24 | playback starts and stays started |
| DailyUpdates.VideoPanel.CurrentView | pm-test/src/components/sections/DailyUpdates.tsx:100-130 | the thumbnail of the URL before play; the player of a non-empty URL after play |
| ClassNames.Truthy | pm-test/src/utils/cn.ts:9 | `Boolean(v)` as `filter(Boolean)` applies it: a non-empty string, a non-zero number or `true`; `KeptMembers` and `EmptyIffAllFalsy` state its use |
| ClassNames.Render | pm-test/src/utils/cn.ts:6-9 | a truthy value writes as a non-empty string; strings as themselves; `true` as `"true"` |
| ClassNames.Kept | pm-test/src/utils/cn.ts:9 | `filter(Boolean)` keeps no more parts than arguments, and every kept part is non-empty |
| ClassNames.KeptMembers | pm-test/src/utils/cn.ts:9 | a part is kept exactly when some truthy argument writes as it |
| ClassNames.KeptAppend | pm-test/src/utils/cn.ts:9 | filtering preserves argument order: it distributes over concatenation of the arguments |
| ClassNames.JoinLength | pm-test/src/utils/cn.ts:9 | `join(sep)` of `k` parts has length of the parts' sum plus `(k - 1)` separators |
| ClassNames.CnLength | pm-test/src/utils/cn.ts:9 | the result's length is the kept parts' total length plus `k - 1` |
| ClassNames.JoinAppend | pm-test/src/utils/cn.ts:9 | joining two non-empty lists is the two joins with one separator between them |
| ClassNames.FalsyIgnored | pm-test/src/utils/cn.ts:6-9 | inserting `false`, `null`, `undefined`, `0` or `''` anywhere leaves the result unchanged |
| ClassNames.Join | pm-test/src/utils/cn.ts:9 | `join(sep)`; `JoinLength`, `JoinAppend` and `SplitJoinEach` state its result |
| ClassNames.Cn | pm-test/src/utils/cn.ts:8-10 | `cn`; `KeptMembers`, `EmptyIffAllFalsy`, `FalsyIgnored`, `CnLength` and `CnTokens` state its result |
| ClassNames.EmptyIffAllFalsy | pm-test/src/utils/cn.ts:9 | the result is empty exactly when no argument is truthy |
| ClassNames.KeptEmptyIff | pm-test/src/utils/cn.ts:9 | nothing is kept exactly when every argument is falsy |
| ClassNames.TrueRendersAsWord | pm-test/src/utils/cn.ts:6-9 | `cn(true)` is `"true"`, `cn()` is `""`, and only-falsy arguments give `""` |
| ClassNames.ConditionalClass | pm-test/src/utils/cn.ts:9 | a `false` or empty conditional class between or after two classes contributes nothing |
| ClassNames.SplitOn | pm-test/src/utils/cn.ts:9 | `split(c)` always yields at least one piece (the reading side of `join`) |
| ClassNames.SplitJoin | pm-test/src/utils/cn.ts:9 | splitting a space-join of space-free parts on spaces gives the parts back |
| ClassNames.SplitEach | pm-test/src/utils/cn.ts:9 | splitting each part gives at least one piece per part |
| ClassNames.CharOccurs | pm-test/src/utils/cn.ts:9 | a one-character pattern occurs exactly where that character stands |
| ClassNames.SplitAppend | pm-test/src/utils/cn.ts:9 | `(a + c + b).split(c)` is `a.split(c)` followed by `b.split(c)` |
| ClassNames.SplitJoinEach | pm-test/src/utils/cn.ts:9 | splitting a join on its one-character separator gives the pieces of every part, in order |
| ClassNames.CnTokens | pm-test/src/utils/cn.ts:9 | `cn(...).split(' ')` is the pieces of the kept parts, each split on its own spaces, in order (so `"w-4 h-4 transition-transform"` gives three pieces); `[""]` when nothing is kept |
| ClassNames.SpacelessTokens | pm-test/src/utils/cn.ts:9 | for kept parts without spaces the split gives back exactly the kept parts |
| Dropdown.EffectiveVariant | pm-test/src/components/ui/Dropdown.tsx:23 | `variant` defaults to desktop |
| Dropdown.Handler | pm-test/src/components/ui/Dropdown.tsx:26-65 | desktop: mouse-enter calls `onOpen`, mouse-leave calls `onClose`, nothing else calls anything; mobile: only a click calls back, `onClose` when open and `onOpen` when closed |
| Dropdown.DesktopIgnoresOpenState | pm-test/src/components/ui/Dropdown.tsx:30-31 | on desktop the callback does not depend on whether the menu is open |
| Dropdown.VisibleItems | pm-test/src/components/ui/Dropdown.tsx:45-84 | all items, in order, while open; none while closed |
| Dropdown.ChevronRotatesWhenOpen | pm-test/src/components/ui/Dropdown.tsx:73 | the mobile chevron carries `rotate-180` exactly while open |
| Dropdown.ChevronClass | pm-test/src/components/ui/Dropdown.tsx:73 | the chevron's classes; `ChevronRotatesWhenOpen` states them |
| Header.Apply | pm-test/src/components/layout/Header.tsx:112-113 | `onOpen` stores the label; `onClose` clears the slot (the same callbacks as the mobile ones at lines 189-190) |
| Header.DesktopEnterOpens | pm-test/src/components/layout/Header.tsx:111-112 | hovering a desktop dropdown opens it, whichever was open before |
| Header.DesktopLeaveClosesAll | pm-test/src/components/layout/Header.tsx:113 | leaving any desktop dropdown clears the slot, even when another label is open |
| Header.MobileClickToggles | pm-test/src/components/layout/Header.tsx:188-190 | a mobile click toggles that dropdown between open and closed |
| Header.AtMostOneOpen | pm-test/src/components/layout/Header.tsx:111-113 | after any event at most one label is open, and an open label is the event's own or was already open |
| Header.IgnoredEventsKeepState | pm-test/src/components/ui/Dropdown.tsx:26-65 | events that call no callback leave the slot unchanged |
| Header.MobileDoubleClickRestores | pm-test/src/components/layout/Header.tsx:188-190 | two clicks on the same mobile dropdown restore its slot |
| Header.RendersDropdown | pm-test/src/components/layout/Header.tsx:106 | `item.hasDropdown && item.dropdownItems`: any present array, even an empty one, counts; `ShippedLabels` applies it to the shipped entries |
| Header.IsDropdownLabel | pm-test/src/components/layout/Header.tsx:104-106 | a label of a shipped entry that renders a dropdown; `ShippedLabels` lists them |
| Header.IsOpen | pm-test/src/components/layout/Header.tsx:111 | `isOpen={openDropdown === item.label}`; `MobileClickToggles` and `DesktopEnterOpens` state how events change it |
| Header.ShippedLabels | pm-test/src/constants/index.ts:85-133 | Trading, Discover, Promotions and Company each render a dropdown |
| Header.Dispatch | pm-test/src/components/layout/Header.tsx:106-113 | the slot after one pointer event; `DesktopEnterOpens`, `DesktopLeaveClosesAll`, `MobileClickToggles`, `AtMostOneOpen` and `IgnoredEventsKeepState` state what it does |
| Header.HeaderState.constructor | pm-test/src/components/layout/Header.tsx:13-16 | initial state: personal, menu closed, both slots empty |
| Header.HeaderState.SetUserType | pm-test/src/components/layout/Header.tsx:27-41 | sets the user type and nothing else |
| Header.HeaderState.ToggleMobileMenu | pm-test/src/components/layout/Header.tsx:164 | negates the menu flag and nothing else; the mobile slot survives closing the menu |
| Header.HeaderState.DesktopEvent | pm-test/src/components/layout/Header.tsx:107-115 | the desktop slot takes the dispatched value; the mobile slot, the user type and the menu flag are unchanged |
| Header.HeaderState.MobileEvent | pm-test/src/components/layout/Header.tsx:179-192 | the mobile slot takes the dispatched value; the desktop slot and everything else are unchanged |
| Header.HeaderState.DesktopItems | pm-test/src/components/layout/Header.tsx:104-116 | the items a desktop dropdown lists now: all of them while its label is open, none otherwise |

## Left out

- Rendering: JSX markup, Tailwind classes, Recharts, `next/image`, `next/link` and `ReactPlayer` are left out. Only the text of the chevron class and the choice between thumbnail and player are modelled.
- React scheduling is not modelled:
  - `useMemo` and `useEffect` dependencies and re-renders.
  - A state setter reads the value of the render it was created in. The model applies each update immediately and runs the selection guard as part of the click that triggers it.
- `Math.random()` is a parameter. Two sources of randomness are not reproduced:
  - The JavaScript object literal in `getChartData` draws values for every generated series, in evaluation order. The model gives each series its own draws.
  - The random values the shuffle really consumed.
- IEEE-754 doubles are exact reals in the model:
  - `Math.ceil(dataMax * 1.1)` over doubles is 111 when `dataMax` is 100, because `100 * 1.1` rounds above 110. The model gives 110 (`Markets.MaxValueOfPeakHundred`).
  - `NaN`, infinities and `-0` are not modelled.
  - `Math.max()` of an empty list (`-Infinity`) is not modelled. It is unreachable because the chart is never empty.
- Markets.MaxValueHeadroom: stated only for non-negative values. For negative values `Math.ceil(v * 1.1)` can lie below `v`. No shipped series has one.
- ClassNames.ClassValue: numbers are integers. Fractional numbers are not modelled, nor `NaN`, which `filter(Boolean)` drops.
- JsText.IntToString: `String(n)` is modelled for integers only, and is exact only below 2^53 in magnitude. From 10^21 on, JavaScript writes exponent form (`String(1e21)` is `"1e+21"`), which the model does not. No `cn` call in the source passes a number.
- `JsText` models JavaScript strings as sequences of Unicode scalar values, while JavaScript counts UTF-16 code units. The two agree on every string in the catalog, whose non-ASCII characters all lie in the Basic Multilingual Plane.
- The catalog file holds its logos and the smileys of reviews 2, 4 and 7 as UTF-8 bytes read as Windows-1252 (four characters, `ðŸ™‚`, where 🙂 was meant). The model keeps these characters as the file holds them and does not decode them, so review 2 is 227 characters long.
- Property lookup on JavaScript objects is modelled by name only:
  - An asset id or timeframe naming an `Object.prototype` member (`"constructor"`, `"toString"`) is not modelled. Such an object lookup would find a function rather than `undefined`.
  - The model treats such a name as unknown and returns the default series.
- DailyUpdates.WatchUrlThumbnail and DailyUpdates.ShortUrlThumbnail: worked instances for canonical links (an id of id characters, then nothing or `&…`, or no query string). Every other URL is covered by `DailyUpdates.WatchUrlId` and `DailyUpdates.ShortUrlId`.
- `useUserType` throwing outside its provider is not modelled. The header always sits inside the provider, and its user type starts as `'personal'` (`pm-test/src/contexts/UserTypeContext.tsx:15`).
- Navigation entries without a dropdown render a plain link; that link and the links' `href="#"` are not modelled. Every shipped entry has a dropdown.
- Header.HeaderState.DesktopEvent: requires the label to be one whose dropdown is rendered. Header.HeaderState.MobileEvent additionally requires the mobile menu to be open. These are the only states in which the source's handlers can fire.
