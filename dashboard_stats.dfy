/** The dashboard's selection logic: which churn rate is shown, the two-slice churn distribution,
    the trend and reason data sets with their built-in fallbacks, the chart colours, and the order in
    which a figure is shown as loading, as unavailable or as a value. */
module DashboardStats {
  import opened Wrappers

  // ---------------------------------------------------------------------------------------------
  // The data the dashboard receives

  /** A JavaScript number as the churn-rate ratio can produce it: a finite value, or the NaN or
      infinity of a division by zero. */
  datatype Num = Finite(x: real) | NonFinite

  /** `churn_rate`, either a number or an object of counts whose members may be undefined. */
  datatype RateField =
    | RateNumber(rate: real)
    | RateObject(yes: Option<real>, no: Option<real>)

  datatype Distribution = Distribution(yes: Option<real>, no: Option<real>)

  datatype TrendPoint = TrendPoint(month: string, churnRate: real)

  datatype ReasonShare = ReasonShare(reason: string, percentage: real)

  /** The dashboard payload; `None` stands for a member that is missing or null. */
  datatype DashboardData = DashboardData(
    totalCustomers: Option<real>,
    churnRate: Option<RateField>,
    avgTenure: Option<real>,
    avgMonthlyCharge: Option<real>,
    churnDistribution: Option<Distribution>,
    churnTrend: Option<seq<TrendPoint>>,
    churnReasons: Option<seq<ReasonShare>>)

  // ---------------------------------------------------------------------------------------------
  // The churn rate

  /** `churnRateValue`: a number is used when it is truthy; an object needs both counts and gives
      the share of churned customers; anything else gives no value. */
  function ChurnRateValue(data: Option<DashboardData>): Option<Num>
  {
    if data.None? || data.value.churnRate.None? then None
    else match data.value.churnRate.value
      case RateNumber(x) => if x == 0.0 then None else Some(Finite(x))
      case RateObject(yes, no) =>
        if yes.None? || no.None? then None
        else if yes.value + no.value == 0.0 then Some(NonFinite)
        else Some(Finite(yes.value / (yes.value + no.value)))
  }

  /** No value exactly when there is no payload, no rate, a zero rate, or an object missing a count;
      a non-zero number is used as it is; both counts give the churned share Yes/(Yes+No), or a
      non-finite number when they add up to zero; that share lies between 0 and 1 for counts that
      are not negative and not both zero. */
  lemma ChurnRateValueCases(data: Option<DashboardData>)
    ensures ChurnRateValue(data).None? <==>
      data.None? || data.value.churnRate.None?
      || data.value.churnRate.value == RateNumber(0.0)
      || (data.value.churnRate.value.RateObject?
          && (data.value.churnRate.value.yes.None? || data.value.churnRate.value.no.None?))
    ensures data.Some? && data.value.churnRate.Some? && data.value.churnRate.value.RateNumber?
            && data.value.churnRate.value.rate != 0.0
      ==> ChurnRateValue(data) == Some(Finite(data.value.churnRate.value.rate))
    ensures data.Some? && data.value.churnRate.Some? && data.value.churnRate.value.RateObject?
            && data.value.churnRate.value.yes.Some? && data.value.churnRate.value.no.Some?
      ==> var yes, no := data.value.churnRate.value.yes.value, data.value.churnRate.value.no.value;
          ChurnRateValue(data) == (if yes + no == 0.0 then Some(NonFinite) else Some(Finite(yes / (yes + no))))
    ensures data.Some? && data.value.churnRate.Some? && data.value.churnRate.value.RateObject?
            && data.value.churnRate.value.yes.Some? && data.value.churnRate.value.no.Some?
            && data.value.churnRate.value.yes.value >= 0.0 && data.value.churnRate.value.no.value >= 0.0
            && data.value.churnRate.value.yes.value + data.value.churnRate.value.no.value > 0.0
      ==> ChurnRateValue(data).Some? && ChurnRateValue(data).value.Finite?
          && 0.0 <= ChurnRateValue(data).value.x <= 1.0
  {
    if data.Some? && data.value.churnRate.Some? && data.value.churnRate.value.RateObject? {
      var rate := data.value.churnRate.value;
      if rate.yes.Some? && rate.no.Some? && rate.yes.value >= 0.0 && rate.no.value >= 0.0
         && rate.yes.value + rate.no.value > 0.0 {
        ShareBounds(rate.yes.value, rate.no.value);
      }
    }
  }

  lemma ShareBounds(yes: real, no: real)
    requires yes >= 0.0 && no >= 0.0 && yes + no > 0.0
    ensures 0.0 <= yes / (yes + no) <= 1.0
  {
    assert yes / (yes + no) * (yes + no) == yes;
  }

  // ---------------------------------------------------------------------------------------------
  // The distribution pie

  /** `x || 0` for a count that may be undefined. */
  function OrZero(v: Option<real>): (r: real)
    ensures r == v.GetOr(0.0)
  {
    if v.Some? && v.value != 0.0 then v.value else 0.0
  }

  /** `prepareChurnDistribution`: the retained slice, then the churned slice. */
  function PrepareChurnDistribution(data: Option<DashboardData>): seq<(string, real)>
  {
    if data.None? || data.value.churnDistribution.None? then []
    else
      var d := data.value.churnDistribution.value;
      [("Retained", OrZero(d.no)), ("Churned", OrZero(d.yes))]
  }

  /** Empty without a distribution; otherwise exactly the retained count then the churned count,
      each 0 when missing, so the two slices add up to the two counts. */
  lemma DistributionShape(data: Option<DashboardData>)
    ensures PrepareChurnDistribution(data) == [] <==> data.None? || data.value.churnDistribution.None?
    ensures data.Some? && data.value.churnDistribution.Some? ==>
      var r := PrepareChurnDistribution(data);
      var d := data.value.churnDistribution.value;
      |r| == 2 && r[0] == ("Retained", d.no.GetOr(0.0)) && r[1] == ("Churned", d.yes.GetOr(0.0))
      && r[0].1 + r[1].1 == d.no.GetOr(0.0) + d.yes.GetOr(0.0)
  {
  }

  const PieColors: seq<string> := ["#0088FE", "#FF8042"]

  /** The fill of the pie slice at position `i`. */
  function PieColor(i: nat): string
  {
    PieColors[i % |PieColors|]
  }

  lemma PieColorsAlternate(i: nat)
    ensures PieColor(i) != PieColor(i + 1)
    ensures PieColor(i) == PieColor(i + 2)
    ensures PieColor(i) == (if i % 2 == 0 then "#0088FE" else "#FF8042")
  {
  }

  /** What the distribution card shows. */
  datatype PieView = PieSkeleton | PieUnavailable | Pie(slices: seq<(string, real, string)>)

  function DistributionChart(data: Option<DashboardData>, isLoading: bool): PieView
  {
    var prepared := PrepareChurnDistribution(data);
    if isLoading then PieSkeleton
    else if |prepared| == 0 then PieUnavailable
    else Pie(seq(|prepared|, i requires 0 <= i < |prepared| => (prepared[i].0, prepared[i].1, PieColor(i))))
  }

  /** Loading wins; otherwise the card is unavailable exactly when there is no distribution, and a
      pie has the retained slice in the first colour and the churned slice in the second. */
  lemma DistributionChartCases(data: Option<DashboardData>, isLoading: bool)
    ensures isLoading ==> DistributionChart(data, isLoading) == PieSkeleton
    ensures !isLoading ==>
      (DistributionChart(data, isLoading) == PieUnavailable
       <==> data.None? || data.value.churnDistribution.None?)
    ensures !isLoading && data.Some? && data.value.churnDistribution.Some? ==>
      var slices := DistributionChart(data, isLoading).slices;
      |slices| == 2 && slices[0].0 == "Retained" && slices[0].2 == "#0088FE"
      && slices[1].0 == "Churned" && slices[1].2 == "#FF8042"
  {
  }

  // ---------------------------------------------------------------------------------------------
  // Trend and reasons

  const FallbackTrend: seq<TrendPoint> := [
    TrendPoint("Jan", 5.2), TrendPoint("Feb", 5.8), TrendPoint("Mar", 5.4), TrendPoint("Apr", 5.9),
    TrendPoint("May", 5.7), TrendPoint("Jun", 6.1), TrendPoint("Jul", 5.6), TrendPoint("Aug", 5.3),
    TrendPoint("Sep", 4.9), TrendPoint("Oct", 4.8), TrendPoint("Nov", 4.6), TrendPoint("Dec", 4.5)]

  const FallbackReasons: seq<ReasonShare> := [
    ReasonShare("Price", 38.0), ReasonShare("Competitor", 25.0), ReasonShare("Service Quality", 15.0),
    ReasonShare("Coverage", 12.0), ReasonShare("Moving", 7.0), ReasonShare("Other", 3.0)]

  const Months: seq<string> :=
    ["Jan", "Feb", "Mar", "Apr", "May", "Jun", "Jul", "Aug", "Sep", "Oct", "Nov", "Dec"]

  /** `churnTrendData`: the payload's trend unless it is missing or null. An empty array is kept. */
  function ChurnTrendData(data: Option<DashboardData>): seq<TrendPoint>
  {
    if data.Some? && data.value.churnTrend.Some? then data.value.churnTrend.value else FallbackTrend
  }

  /** `churnReasonsData`: the payload's reasons unless they are missing or null. */
  function ChurnReasonsData(data: Option<DashboardData>): seq<ReasonShare>
  {
    if data.Some? && data.value.churnReasons.Some? then data.value.churnReasons.value else FallbackReasons
  }

  function SumShares(rs: seq<ReasonShare>): real
  {
    if rs == [] then 0.0 else rs[0].percentage + SumShares(rs[1..])
  }

  /** The fallback trend is one point per month from January to December, every rate inside the
      chart's fixed axis range of 4 to 7 percent. */
  lemma FallbackTrendShape(data: Option<DashboardData>)
    requires data.None? || data.value.churnTrend.None?
    ensures var t := ChurnTrendData(data);
      |t| == 12 && (forall i :: 0 <= i < 12 ==> t[i].month == Months[i] && 4.0 <= t[i].churnRate <= 7.0)
  {
  }

  /** The fallback reasons are six fixed reasons, Price first and Other last, that share out
      exactly 100 percent. */
  lemma FallbackReasonsShape(data: Option<DashboardData>)
    requires data.None? || data.value.churnReasons.None?
    ensures var r := ChurnReasonsData(data);
      |r| == 6 && r[0].reason == "Price" && r[5].reason == "Other" && SumShares(r) == 100.0
  {
    var r := FallbackReasons;
    assert SumShares(r[5..]) == 3.0;
    assert SumShares(r[4..]) == 10.0 by { assert r[4..][1..] == r[5..]; }
    assert SumShares(r[3..]) == 22.0 by { assert r[3..][1..] == r[4..]; }
    assert SumShares(r[2..]) == 37.0 by { assert r[2..][1..] == r[3..]; }
    assert SumShares(r[1..]) == 62.0 by { assert r[1..][1..] == r[2..]; }
  }

  /** A payload that carries its own trend and reasons, even empty ones, replaces the fallbacks. */
  lemma PayloadReplacesFallbacks(data: Option<DashboardData>)
    requires data.Some?
    ensures data.value.churnTrend.Some? ==> ChurnTrendData(data) == data.value.churnTrend.value
    ensures data.value.churnReasons.Some? ==> ChurnReasonsData(data) == data.value.churnReasons.value
  {
  }

  /** The fill of the reason bar at position `i`. */
  function BarColor(i: nat): string
  {
    if i == 0 then "#ef4444"
    else if i == 1 then "#f97316"
    else if i == 2 then "#eab308"
    else if i == 3 then "#10b981"
    else if i == 4 then "#3b82f6"
    else "#8b5cf6"
  }

  /** The first six bars have six different colours, and every bar from the sixth on shares the
      last one. */
  lemma BarColorsDistinctThenFixed(i: nat, j: nat)
    ensures i < j <= 5 ==> BarColor(i) != BarColor(j)
    ensures 5 <= i ==> BarColor(i) == "#8b5cf6"
  {
  }

  // ---------------------------------------------------------------------------------------------
  // Displaying one figure

  datatype Format = Percent | Decimal | Round | Currency | Default

  /** What a figure shows; the rounding that the format asks for is not modelled, the value is kept
      as received together with its format. */
  datatype Display =
    | Skeleton
    | NotAvailable
    | Shown(prefix: string, value: Num, format: Format, suffix: string)

  /** `DisplayData`. */
  function DisplayData(value: Option<Num>, format: Format, unit: string, loading: bool): Display
  {
    if loading then Skeleton
    else if value.None? then NotAvailable
    else Shown(if format == Currency then "$" else "", value.value, format,
               if unit != "" then " " + unit else "")
  }

  /** Loading is checked before the value; a missing value is "not available"; otherwise the
      value is shown, with a dollar sign exactly for currency and a space and the unit exactly
      when a unit is given. */
  lemma DisplayDataOrder(value: Option<Num>, format: Format, unit: string, loading: bool)
    ensures loading ==> DisplayData(value, format, unit, loading) == Skeleton
    ensures DisplayData(value, format, unit, loading) == NotAvailable <==> !loading && value.None?
    ensures !loading && value.Some? ==>
      var d := DisplayData(value, format, unit, loading);
      d.Shown? && d.value == value.value && d.format == format
      && (d.prefix == "$" <==> format == Currency) && (d.prefix == "" <==> format != Currency)
      && (unit == "" ==> d.suffix == "") && (unit != "" ==> d.suffix == " " + unit)
  {
  }

  function Real(v: Option<real>): Option<Num>
  {
    if v.Some? then Some(Finite(v.value)) else None
  }

  /** The four summary figures: total customers, churn rate, average tenure and average monthly
      charge, in that order. */
  function SummaryCards(data: Option<DashboardData>, isLoading: bool): (r: seq<Display>)
    ensures |r| == 4
  {
    var d := if data.Some? then data.value else DashboardData(None, None, None, None, None, None, None);
    [DisplayData(Real(d.totalCustomers), Round, "", isLoading),
     DisplayData(ChurnRateValue(data), Percent, "%", isLoading),
     DisplayData(Real(d.avgTenure), Round, "mo", isLoading),
     DisplayData(Real(d.avgMonthlyCharge), Currency, "", isLoading)]
  }

  /** While loading every card is a skeleton. Once loaded, the cards are, in order: the total
      customers, rounded, with no unit; the churn rate as a percent with the unit "%"; the average
      tenure, rounded, in "mo"; and the average monthly charge with a dollar sign. Each card is
      unavailable exactly when its figure is missing. */
  lemma SummaryCardsShow(data: Option<DashboardData>, isLoading: bool)
    ensures isLoading ==> forall i :: 0 <= i < 4 ==> SummaryCards(data, isLoading)[i] == Skeleton
    ensures !isLoading && data.Some? ==>
      var r := SummaryCards(data, isLoading);
      var d := data.value;
      (r[0] == NotAvailable <==> d.totalCustomers.None?)
      && (d.totalCustomers.Some? ==> r[0] == Shown("", Finite(d.totalCustomers.value), Round, ""))
      && (r[1] == NotAvailable <==> ChurnRateValue(data).None?)
      && (ChurnRateValue(data).Some? ==> r[1] == Shown("", ChurnRateValue(data).value, Percent, " %"))
      && (r[2] == NotAvailable <==> d.avgTenure.None?)
      && (d.avgTenure.Some? ==> r[2] == Shown("", Finite(d.avgTenure.value), Round, " mo"))
      && (r[3] == NotAvailable <==> d.avgMonthlyCharge.None?)
      && (d.avgMonthlyCharge.Some? ==> r[3] == Shown("$", Finite(d.avgMonthlyCharge.value), Currency, ""))
  {
  }

  /** Without a payload every figure is unavailable once loading ends, the pie is unavailable, and
      both charts fall back to the built-in data. */
  lemma NoPayloadShowsFallbacks(isLoading: bool)
    ensures !isLoading ==> forall i :: 0 <= i < 4 ==> SummaryCards(None, isLoading)[i] == NotAvailable
    ensures !isLoading ==> DistributionChart(None, isLoading) == PieUnavailable
    ensures ChurnTrendData(None) == FallbackTrend && ChurnReasonsData(None) == FallbackReasons
  {
  }
}
