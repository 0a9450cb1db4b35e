/**
 * The static catalogs of the homepage (market categories, timeframes, market
 * assets, testimonials and their configuration) and the chart-series table
 * `getChartData` that maps an asset and a timeframe to a series of points.
 *
 * `Math.random()` is injected as `random: nat -> real`: point `i` of a
 * generated series draws `random(i)`.
 */
module Catalog {
  import opened Common
  import opened JsText

  datatype MarketAsset = MarketAsset(
    id: string,
    name: string,
    symbol: string,
    logo: string,
    price: string,
    buyPrice: string,
    sellPrice: string,
    change: string,
    changePercent: string,
    isPositive: bool,
    category: string,
    buyers: real,
    sellers: real,
    low: string,
    high: string)

  /** A filter tab; `caption` is the source's `label` (a Dafny keyword). */
  datatype MarketCategory = MarketCategory(id: string, caption: string)

  /** One plotted sample; `date` and `price` are present only on highlighted points. */
  datatype ChartPoint = ChartPoint(month: string, value: real, date: Option<string>, price: Option<string>)

  datatype TestimonialIcon = Headphone | Email | Earth

  datatype Testimonial = Testimonial(id: string, review: string, name: string, initials: string, icon: TestimonialIcon)

  datatype TestimonialsConfig = TestimonialsConfig(itemsPerPage: nat, maxLength: nat)

  const MarketCategories: seq<MarketCategory> := [
    MarketCategory("most-traded", "Most Traded"),
    MarketCategory("commodities", "Commodities"),
    MarketCategory("indices", "Indices"),
    MarketCategory("cryptocurrencies", "Cryptocurrencies"),
    MarketCategory("shares", "Shares"),
    MarketCategory("etfs", "ETFs")
  ]

  const Timeframes: seq<string> := ["1d", "1h", "4h", "1m", "5m", "15m", "30m", "1w"]

  // The logos and the smileys in reviews 2, 4 and 7 hold the characters the
  // catalog file itself holds: UTF-8 bytes of emoji read as Windows-1252
  // (`\U{F0}\U{178}\U{2122}\U{201A}` where U+1F642 was meant). They are kept undecoded.
  const Btc: MarketAsset :=
    MarketAsset("btc", "BTC Bitcoin", "BTC", "\U{E2}\U{201A}\U{BF}", "52,400.00", "52,450.00", "52,350.00",
      "+1,250.00", "+3,25%", true, "cryptocurrencies", 66.93, 33.07, "51,200.00", "52,800.00")
  const Eth: MarketAsset :=
    MarketAsset("eth", "ETH Ethereum", "ETH", "\U{CE}\U{17E}", "3,250.00", "3,255.00", "3,245.00",
      "+85.50", "+2.70%", true, "cryptocurrencies", 58.20, 41.80, "3,180.00", "3,280.00")
  const Gold: MarketAsset :=
    MarketAsset("gold", "Gold", "XAU/USD", "\U{F0}\U{178}\U{A5}\U{2021}", "3773.31", "3773.61", "3773.01",
      "+15.50", "+0.41%", true, "commodities", 66.93, 33.07, "3686.38", "3788.96")
  const Oil: MarketAsset :=
    MarketAsset("oil", "Crude Oil", "WTI/USD", "\U{F0}\U{178}\U{203A}\U{A2}\U{EF}\U{B8}", "78.45", "78.50", "78.40",
      "-0.85", "-1.07%", false, "commodities", 45.30, 54.70, "77.20", "79.80")
  const Sp500: MarketAsset :=
    MarketAsset("sp500", "S&P 500", "SPX", "\U{F0}\U{178}\U{201C}\U{2C6}", "4,850.25", "4,852.00", "4,848.50",
      "+25.50", "+0.53%", true, "indices", 72.15, 27.85, "4,820.00", "4,865.00")
  const Nasdaq: MarketAsset :=
    MarketAsset("nasdaq", "NASDAQ", "NDX", "\U{F0}\U{178}\U{2019}\U{B9}", "15,420.75", "15,425.00", "15,416.50",
      "+120.25", "+0.79%", true, "indices", 68.40, 31.60, "15,300.00", "15,450.00")
  const Apple: MarketAsset :=
    MarketAsset("apple", "Apple Inc.", "AAPL", "\U{F0}\U{178}\U{17D}", "185.50", "185.75", "185.25",
      "+2.30", "+1.26%", true, "shares", 65.80, 34.20, "183.20", "186.00")
  const Tesla: MarketAsset :=
    MarketAsset("tesla", "Tesla Inc.", "TSLA", "\U{E2}\U{161}\U{A1}", "245.80", "246.00", "245.60",
      "-3.20", "-1.29%", false, "shares", 42.50, 57.50, "243.00", "249.00")

  const MarketAssets: seq<MarketAsset> := [Btc, Eth, Gold, Oil, Sp500, Nasdaq, Apple, Tesla]

  const Review1: Testimonial := Testimonial("1", "I'm new in trading and I really like that Premier let me start small. I can trade crypto and few other assets easy. Withdrawls are quick too. Help Center is simple to use and I learned a lot from there.",
                "Adam Keller", "AK", Headphone)
  const Review2: Testimonial := Testimonial("2", "Premier works well for me. KYC was fast and support people (Thx milos!!) \U{F0}\U{178}\U{2122}\U{201A} helped me right away when I had a question. I was able to deposit and start trading in same day. Withdrawal came to my bank after 2 days. All smooth.",
                "Lucas Vermeer", "LV", Headphone)
  const Review3: Testimonial := Testimonial("3", "Been using Premier for about 3 months now. Card deposits go through right away and show in balance within a minute. I withdraw my profit each month and it's always in my bank by end of day. Very happy.",
                "David Lorens", "DL", Email)
  const Review4: Testimonial := Testimonial("4", "My experince with PM is perfect so far. Payouts come same day few hours max. Works good with both crypto and credit card. You can take money out many times per day and no hidden fees. Spreads are ok too \U{F0}\U{178}\U{2122}\U{201A}",
                "Marco Lazzari", "ML", Earth)
  const Review5: Testimonial := Testimonial("5", "I think Premier's trading cost are low compare to others. Spreads are good on most pairs, deposit is free, for withdraw they have a small fee but it's fine. Thanks guys",
                "Petar Ilic", "PL", Email)
  const Review6: Testimonial := Testimonial("6", "Premier is a serious broker. Web platform looks nice and runs good. Support reply quick and helpful. Sometimes small slippage in busy time but nothing crazy. Commisions are low so I stay here.",
                "Mark \"Clips\" Renard", "MR", Email)
  const Review7: Testimonial := Testimonial("7", "Good service \U{F0}\U{178}\U{2122}\U{201A} Never had a single problem with withdraw. Usually takes under 24 hours. You get update when it's submitted and when it's done. Got many assets to trade and the spreads are not bad. And mT5 Thank you!",
                "TradeAce92", "TA", Headphone)
  const Review8: Testimonial := Testimonial("8", "Multiple withdraws made, all success. Used both bank and international transfer. Also few friends joined from my referral and no issue for them. Been here long time, still all fine.",
                "Shivani Kaur", "SK", Earth)
  const Review9: Testimonial := Testimonial("9", "Deposit and withdraws are fast. One time my payout came before my bank even show the deduction lol. Trade speed is good and data feed fast too. Feels like pro level broker.",
                "Mateusz Durek", "MD", Email)
  const TestimonialsData: seq<Testimonial> :=
    [Review1, Review2, Review3, Review4, Review5, Review6, Review7, Review8, Review9]


  const TestimonialsSettings: TestimonialsConfig := TestimonialsConfig(9, 150)

  const Months: seq<string> := ["Jan", "Feb", "Mar", "Apr", "May", "Jun", "Jul", "Aug", "Sep", "Oct", "Nov", "Dec"]

  const Weekdays: seq<string> := ["Mon", "Tue", "Wed", "Thu", "Fri", "Sat", "Sun"]

  /** The values of the two hand-written tables (gold by day and by week). */
  const FixedValues: seq<real> := [20.0, 35.0, 45.0, 30.0, 50.0, 60.0, 70.0]

  /** Every value `Math.random()` can return. */
  ghost predicate RandomUnit(random: nat -> real)
  {
    forall k: nat :: 0.0 <= random(k) < 1.0
  }

  /** The x-axis label `${h}:00`. */
  function HourLabel(h: nat): (r: string)
    ensures |r| >= 4 && r[|r| - 3..] == ":00"
    ensures var digits := r[..|r| - 3]; (forall i :: 0 <= i < |digits| ==> '0' <= digits[i] <= '9') && DigitsValue(digits) == h
  {
    var r := NatToString(h) + ":00";
    assert r[..|r| - 3] == NatToString(h);
    r
  }

  /** The x-axis label `${m}m`. */
  function MinuteLabel(m: nat): (r: string)
    ensures |r| >= 2 && r[|r| - 1] == 'm'
    ensures var digits := r[..|r| - 1]; (forall i :: 0 <= i < |digits| ==> '0' <= digits[i] <= '9') && DigitsValue(digits) == m
  {
    var r := NatToString(m) + "m";
    assert r[..|r| - 1] == NatToString(m);
    r
  }

  /** The label of bucket `i` of a generated series for `timeframe`. */
  function BucketLabel(timeframe: string, i: nat): string
  {
    if timeframe == "1d" || timeframe == "4h" then HourLabel(i * 4)
    else if timeframe == "1h" then HourLabel(i)
    else if timeframe == "1m" then MinuteLabel(i)
    else if timeframe == "5m" then MinuteLabel(i * 5)
    else if timeframe == "15m" then MinuteLabel(i * 15)
    else if timeframe == "30m" then MinuteLabel(i * 30)
    else if i < 7 then Weekdays[i]
    else ""
  }

  /** `Array.from({ length: n }, (_, i) => ({ month: label, value: low + Math.random() * span }))`. */
  function Generated(timeframe: string, n: nat, low: real, span: real, random: nat -> real): (r: seq<ChartPoint>)
    ensures |r| == n
    ensures forall i :: 0 <= i < n ==> r[i] == ChartPoint(BucketLabel(timeframe, i), low + random(i) * span, None, None)
  {
    seq(n, (i: int) requires 0 <= i < n => ChartPoint(BucketLabel(timeframe, i), low + random(i) * span, None, None))
  }

  /** The hand-written gold table for one day; only its first point is annotated. */
  const GoldDay: seq<ChartPoint> := [
    ChartPoint("00:00", 20.0, Some("28 Okt 2023"), Some("$1,425.00")),
    ChartPoint("04:00", 35.0, None, None),
    ChartPoint("08:00", 45.0, None, None),
    ChartPoint("12:00", 30.0, None, None),
    ChartPoint("16:00", 50.0, None, None),
    ChartPoint("20:00", 60.0, None, None),
    ChartPoint("24:00", 70.0, None, None)
  ]

  /** The hand-written gold table for one week. */
  const GoldWeek: seq<ChartPoint> := [
    ChartPoint("Mon", 20.0, None, None),
    ChartPoint("Tue", 35.0, None, None),
    ChartPoint("Wed", 45.0, None, None),
    ChartPoint("Thu", 30.0, None, None),
    ChartPoint("Fri", 50.0, None, None),
    ChartPoint("Sat", 60.0, None, None),
    ChartPoint("Sun", 70.0, None, None)
  ]

  /** The number of buckets of a generated series for a timeframe the tables know. */
  function GeneratedLength(timeframe: string): nat
  {
    if timeframe == "1d" || timeframe == "1w" then 7
    else if timeframe == "1h" then 24
    else if timeframe == "4h" then 6
    else if timeframe == "1m" then 60
    else if timeframe == "5m" then 12
    else if timeframe == "15m" then 4
    else 2
  }

  /** `baseData[assetId]?.[timeframe]`: the table entry, `None` when either key is missing. */
  function BaseSeries(assetId: string, timeframe: string, random: nat -> real): Option<seq<ChartPoint>>
  {
    if timeframe !in Timeframes then None
    else if assetId == "gold" then
      if timeframe == "1d" then Some(GoldDay)
      else if timeframe == "1w" then Some(GoldWeek)
      else Some(Generated(timeframe, GeneratedLength(timeframe), 20.0, 80.0, random))
    else if assetId == "btc" then
      Some(Generated(timeframe, GeneratedLength(timeframe), 30.0, 70.0, random))
    else None
  }

  /** The twelve-month series returned when the table has no entry. */
  function DefaultData(random: nat -> real): (r: seq<ChartPoint>)
    ensures |r| == 12
  {
    seq(12, (i: int) requires 0 <= i < 12 => ChartPoint(Months[i], 20.0 + random(i) * 80.0, None, None))
  }

  /** `getChartData(assetId, timeframe)`: the table entry or, failing that, the default series. */
  function GetChartData(assetId: string, timeframe: string, random: nat -> real): seq<ChartPoint>
  {
    match BaseSeries(assetId, timeframe, random)
    case Some(series) => series
    case None => DefaultData(random)
  }

  /** The configured bucket count of each timeframe, independent of the tables. */
  function BucketCount(timeframe: string): Option<nat>
  {
    match timeframe
    case "1d" => Some(7)
    case "1h" => Some(24)
    case "4h" => Some(6)
    case "1m" => Some(60)
    case "5m" => Some(12)
    case "15m" => Some(4)
    case "30m" => Some(2)
    case "1w" => Some(7)
    case _ => None
  }

  function SeriesValues(series: seq<ChartPoint>): (r: seq<real>)
    ensures |r| == |series|
    ensures forall i :: 0 <= i < |series| ==> r[i] == series[i].value
  {
    seq(|series|, (i: int) requires 0 <= i < |series| => series[i].value)
  }

  /** For `gold` and `btc` every timeframe of `TIMEFRAMES` yields exactly its configured bucket count. */
  lemma SeriesLengthByTimeframe(assetId: string, timeframe: string, random: nat -> real)
    requires assetId == "gold" || assetId == "btc"
    requires BucketCount(timeframe).Some?
    ensures |GetChartData(assetId, timeframe, random)| == BucketCount(timeframe).value
  {
    GeneratedLengthIsBucketCount(timeframe);
  }

  lemma GeneratedLengthIsBucketCount(timeframe: string)
    requires BucketCount(timeframe).Some?
    ensures timeframe in Timeframes && GeneratedLength(timeframe) == BucketCount(timeframe).value
  {
    match timeframe
    case "1d" =>
    case "1h" =>
    case "4h" =>
    case "1m" =>
    case "5m" =>
    case "15m" =>
    case "30m" =>
    case "1w" =>
  }

  /** An asset without a table, or a timeframe outside `TIMEFRAMES`, yields the twelve months in order. */
  lemma UnknownPairYieldsDefault(assetId: string, timeframe: string, random: nat -> real)
    requires (assetId != "gold" && assetId != "btc") || timeframe !in Timeframes
    ensures var r := GetChartData(assetId, timeframe, random);
      && |r| == 12
      && (forall i :: 0 <= i < 12 ==> r[i].month == Months[i] && r[i].date.None? && r[i].price.None?)
  {
  }

  /** `gold`/`1d` is the fixed table 20,35,45,30,50,60,70 whose first point alone carries a date and a price. */
  lemma GoldDayIsFixed(random: nat -> real)
    ensures var r := GetChartData("gold", "1d", random);
      && SeriesValues(r) == FixedValues
      && r[0].date == Some("28 Okt 2023") && r[0].price == Some("$1,425.00")
      && (forall i :: 1 <= i < |r| ==> r[i].date.None? && r[i].price.None?)
  {
    assert "1d" in Timeframes;
    assert SeriesValues(GoldDay) == FixedValues;
  }

  /** `gold`/`1w` is the fixed table labelled Mon..Sun with the same seven values. */
  lemma GoldWeekIsFixed(random: nat -> real)
    ensures var r := GetChartData("gold", "1w", random);
      && SeriesValues(r) == FixedValues
      && |r| == |Weekdays|
      && (forall i :: 0 <= i < |r| ==> r[i].month == Weekdays[i])
  {
    assert "1w" in Timeframes;
    assert SeriesValues(GoldWeek) == FixedValues;
  }

  /** Given samples in [0,1), every value lies in [20,100), and every generated `btc` value in [30,100). */
  lemma ChartValueRanges(assetId: string, timeframe: string, random: nat -> real)
    requires RandomUnit(random)
    ensures var r := GetChartData(assetId, timeframe, random);
      forall i :: 0 <= i < |r| ==> 20.0 <= r[i].value < 100.0
    ensures assetId == "btc" && timeframe in Timeframes ==>
      var r := GetChartData(assetId, timeframe, random);
      forall i :: 0 <= i < |r| ==> 30.0 <= r[i].value < 100.0
  {
    var r := GetChartData(assetId, timeframe, random);
    forall i | 0 <= i < |r|
      ensures 20.0 <= r[i].value < 100.0
      ensures assetId == "btc" && timeframe in Timeframes ==> 30.0 <= r[i].value
    {
      assert 0.0 <= random(i) < 1.0;
      if assetId == "gold" && (timeframe == "1d" || timeframe == "1w") {
        assert SeriesValues(r) == FixedValues;
        assert r[i].value == FixedValues[i];
      }
    }
  }

  /** Every series the table or the default can return has at least two points. */
  lemma ChartDataNeverDegenerate(assetId: string, timeframe: string, random: nat -> real)
    ensures |GetChartData(assetId, timeframe, random)| >= 2
  {
  }

  /** Catalog identifiers are pairwise distinct. */
  lemma AssetIdsDistinct()
    ensures forall i, j :: 0 <= i < j < |MarketAssets| ==> MarketAssets[i].id != MarketAssets[j].id
  {
  }

  lemma TestimonialCount()
    ensures |TestimonialsData| == 9
  {
  }
}
