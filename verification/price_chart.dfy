/** The price chart's axis logic: the y-axis domain scaled around the price range, and the
    x-axis tick labels cut out of `YYYY-MM-DD` date strings. */
module PriceChart {
  import opened Wrappers
  import Text

  datatype ChartPoint = ChartPoint(date: string, price: real)

  /** The y-axis domain `[minPrice, maxPrice]`. */
  datatype Bounds = Bounds(minPrice: real, maxPrice: real)

  /** `Math.min(...prices)` over a non-empty list. */
  function MinPrice(data: seq<ChartPoint>): (m: real)
    requires |data| > 0
    ensures exists i :: 0 <= i < |data| && m == data[i].price
    ensures forall i :: 0 <= i < |data| ==> m <= data[i].price
    decreases |data|
  {
    if |data| == 1 then data[0].price
    else
      var rest := MinPrice(data[1..]);
      if data[0].price <= rest then data[0].price else rest
  }

  /** `Math.max(...prices)` over a non-empty list. */
  function MaxPrice(data: seq<ChartPoint>): (m: real)
    requires |data| > 0
    ensures exists i :: 0 <= i < |data| && m == data[i].price
    ensures forall i :: 0 <= i < |data| ==> data[i].price <= m
    decreases |data|
  {
    if |data| == 1 then data[0].price
    else
      var rest := MaxPrice(data[1..]);
      if rest <= data[0].price then data[0].price else rest
  }

  /** The domain: 95% of the lowest price to 105% of the highest. An empty series has no finite
      domain (the chart would get `[Infinity, -Infinity]`), modelled as None. */
  function YDomain(data: seq<ChartPoint>): (r: Option<Bounds>)
    ensures r.None? <==> |data| == 0
    ensures r.Some? ==> exists i :: 0 <= i < |data| && r.value.minPrice == 0.95 * data[i].price
    ensures r.Some? ==> exists i :: 0 <= i < |data| && r.value.maxPrice == 1.05 * data[i].price
    ensures r.Some? ==> forall i :: 0 <= i < |data| ==>
      r.value.minPrice <= 0.95 * data[i].price && 1.05 * data[i].price <= r.value.maxPrice
  {
    if |data| == 0 then None
    else Some(Bounds(0.95 * MinPrice(data), 1.05 * MaxPrice(data)))
  }

  /** For non-negative prices the domain is well ordered and every point lies inside it. */
  lemma DomainContainsSeries(data: seq<ChartPoint>)
    requires |data| > 0
    requires forall i :: 0 <= i < |data| ==> data[i].price >= 0.0
    ensures YDomain(data).Some?
    ensures YDomain(data).value.minPrice <= YDomain(data).value.maxPrice
    ensures forall i :: 0 <= i < |data| ==>
      YDomain(data).value.minPrice <= data[i].price <= YDomain(data).value.maxPrice
  {
    var b := YDomain(data).value;
    assert b.minPrice <= 0.95 * data[0].price;
    assert 1.05 * data[0].price <= b.maxPrice;
  }

  /** Without the non-negativity premise the domain can come out inverted. */
  lemma NegativePriceInvertsDomain()
    ensures var b := YDomain([ChartPoint("2024-01-01", -1.0)]).value; b.minPrice > b.maxPrice
  {
    var data := [ChartPoint("2024-01-01", -1.0)];
    assert MinPrice(data) == -1.0 && MaxPrice(data) == -1.0;
  }

  // ---------------------------------------------------------------------------------------------
  // Tick labels

  /** The three label styles `getTickFormatter` chooses between. */
  datatype TickStyle = LocalTime | MonthDay | MonthYear

  /** The period the chart uses when none is given. */
  const DefaultPeriod: string := "30D"

  /** The label style for a period; a missing period means the default, and an unrecognised
      one falls into the `default` branch, which labels like 7D and 30D. */
  function StyleFor(period: Option<string>): (s: TickStyle)
    ensures s == LocalTime <==> period == Some("1D")
    ensures s == MonthYear <==> period == Some("90D") || period == Some("1Y") || period == Some("ALL")
    ensures period.None? || period == Some("7D") || period == Some("30D") ==> s == MonthDay
  {
    var p := if period.Some? then period.value else DefaultPeriod;
    if p == "1D" then LocalTime
    else if p == "7D" || p == "30D" then MonthDay
    else if p == "90D" || p == "1Y" || p == "ALL" then MonthYear
    else MonthDay
  }

  /** What a template literal prints for a missing array element. */
  const Undefined: string := "undefined"

  /** The label of one tick; None for the 1D style, whose locale time formatting is not modelled. */
  function TickLabel(period: Option<string>, tick: string): (r: Option<string>)
    ensures r.None? <==> StyleFor(period) == LocalTime
    ensures StyleFor(period) == MonthDay && |tick| >= 5 ==> tick == tick[..5] + r.value
    ensures StyleFor(period) == MonthDay && |tick| < 5 ==> r.value == ""
  {
    match StyleFor(period)
    case LocalTime => None
    case MonthDay => Some(Text.Drop(tick, 5))
    case MonthYear =>
      var parts := Text.Split(tick, '-');
      var month := if |parts| > 1 then parts[1] else Undefined;
      Some(month + "/" + Text.Drop(parts[0], 2))
  }

  predicate IsDigit(c: char) { '0' <= c <= '9' }

  /** A `YYYY-MM-DD` calendar date string. */
  predicate IsIsoDate(s: string) {
    && |s| == 10
    && s[4] == '-' && s[7] == '-'
    && forall i :: 0 <= i < 10 && i != 4 && i != 7 ==> IsDigit(s[i])
  }

  /** A date string splits on '-' into its year, month and day fields. */
  lemma IsoDateFields(s: string)
    requires IsIsoDate(s)
    ensures Text.Split(s, '-') == [s[..4], s[5..7], s[8..]]
  {
    assert s == s[..4] + ['-'] + (s[5..7] + ['-'] + s[8..]);
    assert s[5..7] + ['-'] + s[8..] == s[5..] ;
    assert '-' !in s[..4] by {
      forall k | 0 <= k < 4 ensures s[..4][k] != '-' { assert IsDigit(s[k]); }
    }
    assert '-' !in s[5..7] by {
      forall k | 0 <= k < 2 ensures s[5..7][k] != '-' { assert IsDigit(s[5 + k]); }
    }
    assert '-' !in s[8..] by {
      forall k | 0 <= k < 2 ensures s[8..][k] != '-' { assert IsDigit(s[8 + k]); }
    }
    Text.SplitAtFirstSeparator(s[..4], '-', s[5..]);
    Text.SplitAtFirstSeparator(s[5..7], '-', s[8..]);
    Text.SplitWithoutSeparator(s[8..], '-');
  }

  /** For a date string, the short periods label `MM-DD` and the long periods `MM/YY`. */
  lemma DateTickLabels(period: Option<string>, s: string)
    requires IsIsoDate(s)
    ensures StyleFor(period) == MonthDay ==> TickLabel(period, s) == Some(s[5..7] + "-" + s[8..10])
    ensures StyleFor(period) == MonthYear ==> TickLabel(period, s) == Some(s[5..7] + "/" + s[2..4])
  {
    IsoDateFields(s);
    assert s[5..] == s[5..7] + "-" + s[8..10];
    assert Text.Drop(s[..4], 2) == s[2..4];
  }
}
