/** The 30-day chart: the decoded `date -> {currency -> rate}` dictionary becomes a
    date-ordered series with its lowest and highest rate, and a drag over the chart
    selects the point nearest in time to the probed date. */
module Chart {
  import opened Common
  import Sorting

  datatype HistoricalRate = HistoricalRate(date: Instant, rate: real)

  /** One entry of the decoded `rates` dictionary, in the dictionary's iteration order. */
  datatype DayRates = DayRates(dateStr: string, rates: RateTable)

  function DateOf(p: HistoricalRate): real {
    p.date
  }

  /** `rateDict[targetCurrency] ?? 0`. */
  function RateOrZero(rates: RateTable, target: string): real {
    if target in rates then rates[target] else 0.0
  }

  /** The `compactMap` closure: an entry whose date string parses yields one point. */
  function PointOf(e: DayRates, target: string, toDate: string -> Option<Instant>): Option<HistoricalRate> {
    match toDate(e.dateStr)
    case Some(t) => Some(HistoricalRate(t, RateOrZero(e.rates, target)))
    case None => None
  }

  /** The `compactMap`: entries whose date fails to parse are dropped, every other
      entry yields exactly one point, with rate 0 when the target currency is absent,
      and the points keep the entries' order. */
  function ParsePoints(entries: seq<DayRates>, target: string, toDate: string -> Option<Instant>): (r: seq<HistoricalRate>)
    ensures |r| <= |entries|
    ensures |r| == |entries| <==> forall k :: 0 <= k < |entries| ==> toDate(entries[k].dateStr).Some?
    ensures forall k :: 0 <= k < |entries| && toDate(entries[k].dateStr).Some? ==>
      HistoricalRate(toDate(entries[k].dateStr).value, RateOrZero(entries[k].rates, target)) in r
    ensures forall p :: p in r ==> exists k :: 0 <= k < |entries| && PointOf(entries[k], target, toDate) == Some(p)
    decreases |entries|
  {
    if entries == [] then []
    else
      var last := |entries| - 1;
      var front := ParsePoints(entries[..last], target, toDate);
      assert forall k :: 0 <= k < last ==> entries[..last][k] == entries[k];
      front + PointOf(entries[last], target, toDate).ToSeq()
  }

  /** The indices of the entries whose date parses. */
  function ParsableIndices(entries: seq<DayRates>, toDate: string -> Option<Instant>): set<nat> {
    set k: nat | k < |entries| && toDate(entries[k].dateStr).Some?
  }

  /** The indices of the entries that yield the point `p`. */
  function YieldingIndices(entries: seq<DayRates>, target: string, toDate: string -> Option<Instant>, p: HistoricalRate): set<nat> {
    set k: nat | k < |entries| && PointOf(entries[k], target, toDate) == Some(p)
  }

  /** The last entry contributes its point, if any, after the points of the others. */
  lemma ParsePointsSnoc(entries: seq<DayRates>, target: string, toDate: string -> Option<Instant>)
    requires entries != []
    ensures ParsePoints(entries, target, toDate)
      == ParsePoints(entries[..|entries| - 1], target, toDate) + PointOf(entries[|entries| - 1], target, toDate).ToSeq()
  {
  }

  /** Appending an entry adds its index to the parseable ones exactly when its date
      parses. */
  lemma ParsableSnoc(entries: seq<DayRates>, toDate: string -> Option<Instant>)
    requires entries != []
    ensures var last := |entries| - 1;
      |ParsableIndices(entries, toDate)|
        == |ParsableIndices(entries[..last], toDate)| + (if toDate(entries[last].dateStr).Some? then 1 else 0)
  {
    var last := |entries| - 1;
    var front := entries[..last];
    var parsable := ParsableIndices(front, toDate);
    var here := if toDate(entries[last].dateStr).Some? then {last} else {};
    forall k: nat
      ensures k in ParsableIndices(entries, toDate) <==> k in parsable + here
    {
      if k < last {
        assert front[k] == entries[k];
      }
    }
    assert ParsableIndices(entries, toDate) == parsable + here;
    assert last !in parsable;
  }

  /** Appending an entry adds its index to those yielding `p` exactly when it yields `p`. */
  lemma YieldingSnoc(entries: seq<DayRates>, target: string, toDate: string -> Option<Instant>, p: HistoricalRate)
    requires entries != []
    ensures var last := |entries| - 1;
      |YieldingIndices(entries, target, toDate, p)|
        == |YieldingIndices(entries[..last], target, toDate, p)|
           + (if PointOf(entries[last], target, toDate) == Some(p) then 1 else 0)
  {
    var last := |entries| - 1;
    var front := entries[..last];
    var yielding := YieldingIndices(front, target, toDate, p);
    var here := if PointOf(entries[last], target, toDate) == Some(p) then {last} else {};
    forall k: nat
      ensures k in YieldingIndices(entries, target, toDate, p) <==> k in yielding + here
    {
      if k < last {
        assert front[k] == entries[k];
      }
    }
    assert YieldingIndices(entries, target, toDate, p) == yielding + here;
    assert last !in yielding;
  }

  /** One point per parseable entry: there are as many points as entries whose date
      parses. */
  lemma {:induction false} ParsePointsLength(entries: seq<DayRates>, target: string, toDate: string -> Option<Instant>)
    ensures |ParsePoints(entries, target, toDate)| == |ParsableIndices(entries, toDate)|
    decreases |entries|
  {
    if entries == [] {
      assert ParsableIndices(entries, toDate) == {};
    } else {
      var last := |entries| - 1;
      ParsePointsSnoc(entries, target, toDate);
      ParsePointsLength(entries[..last], target, toDate);
      ParsableSnoc(entries, toDate);
    }
  }

  /** Each point occurs in the result as often as there are entries yielding it. */
  lemma {:induction false} PointMultiplicity(entries: seq<DayRates>, target: string, toDate: string -> Option<Instant>, p: HistoricalRate)
    ensures multiset(ParsePoints(entries, target, toDate))[p] == |YieldingIndices(entries, target, toDate, p)|
    decreases |entries|
  {
    if entries == [] {
      assert YieldingIndices(entries, target, toDate, p) == {};
    } else {
      var last := |entries| - 1;
      ParsePointsSnoc(entries, target, toDate);
      PointMultiplicity(entries[..last], target, toDate, p);
      YieldingSnoc(entries, target, toDate, p);
    }
  }

  /** `map { $0.rate }.min() ?? 0`. */
  function MinRate(s: seq<HistoricalRate>): (m: real)
    ensures s == [] ==> m == 0.0
    ensures s != [] ==> exists k :: 0 <= k < |s| && s[k].rate == m
    ensures forall k :: 0 <= k < |s| ==> m <= s[k].rate
    decreases |s|
  {
    if |s| == 0 then 0.0
    else if |s| == 1 then s[0].rate
    else
      var m := MinRate(s[..|s| - 1]);
      assert forall k :: 0 <= k < |s| - 1 ==> s[..|s| - 1][k] == s[k];
      if s[|s| - 1].rate < m then s[|s| - 1].rate else m
  }

  /** `map { $0.rate }.max() ?? 0`. */
  function MaxRate(s: seq<HistoricalRate>): (m: real)
    ensures s == [] ==> m == 0.0
    ensures s != [] ==> exists k :: 0 <= k < |s| && s[k].rate == m
    ensures forall k :: 0 <= k < |s| ==> s[k].rate <= m
    decreases |s|
  {
    if |s| == 0 then 0.0
    else if |s| == 1 then s[0].rate
    else
      var m := MaxRate(s[..|s| - 1]);
      assert forall k :: 0 <= k < |s| - 1 ==> s[..|s| - 1][k] == s[k];
      if s[|s| - 1].rate > m then s[|s| - 1].rate else m
  }

  /** What the handler assigns to `rates`, `minY` and `maxY` together. */
  datatype Series = Series(rates: seq<HistoricalRate>, minY: real, maxY: real)

  /** The transform inside `fetchRates`: the parsed points ordered by date, and the
      bounds of their rates (both 0 for an empty series). */
  function Transform(entries: seq<DayRates>, target: string, toDate: string -> Option<Instant>): (r: Series)
    ensures Sorting.SortedBy(r.rates, DateOf)
    ensures multiset(r.rates) == multiset(ParsePoints(entries, target, toDate))
    ensures r.rates == [] ==> r.minY == 0.0 && r.maxY == 0.0
    ensures forall k :: 0 <= k < |r.rates| ==> r.minY <= r.rates[k].rate <= r.maxY
    ensures r.rates != [] ==>
      (exists k :: 0 <= k < |r.rates| && r.rates[k].rate == r.minY) &&
      (exists k :: 0 <= k < |r.rates| && r.rates[k].rate == r.maxY)
  {
    var sorted := Sorting.SortBy(ParsePoints(entries, target, toDate), DateOf);
    Series(sorted, MinRate(sorted), MaxRate(sorted))
  }

  /** Every point of the series comes from an entry whose date parsed, and every such
      entry's point is in the series. */
  lemma SeriesHoldsExactlyTheParsedEntries(entries: seq<DayRates>, target: string, toDate: string -> Option<Instant>)
    ensures var r := Transform(entries, target, toDate).rates;
      && |r| <= |entries|
      && (forall p :: p in r ==> exists k :: 0 <= k < |entries| && PointOf(entries[k], target, toDate) == Some(p))
      && (forall k :: 0 <= k < |entries| && toDate(entries[k].dateStr).Some? ==>
            HistoricalRate(toDate(entries[k].dateStr).value, RateOrZero(entries[k].rates, target)) in r)
      && |r| == |ParsableIndices(entries, toDate)|
      && (forall p :: multiset(r)[p] == |YieldingIndices(entries, target, toDate, p)|)
  {
    ParsePointsLength(entries, target, toDate);
    var parsed := ParsePoints(entries, target, toDate);
    var r := Transform(entries, target, toDate).rates;
    assert multiset(r) == multiset(parsed);
    assert |r| == |parsed| by {
      assert |multiset(r)| == |multiset(parsed)|;
    }
    forall p | p in r
      ensures exists k :: 0 <= k < |entries| && PointOf(entries[k], target, toDate) == Some(p)
    {
      assert p in multiset(r);
      assert p in parsed;
    }
    forall p ensures multiset(r)[p] == |YieldingIndices(entries, target, toDate, p)| {
      PointMultiplicity(entries, target, toDate, p);
    }
    forall k | 0 <= k < |entries| && toDate(entries[k].dateStr).Some?
      ensures HistoricalRate(toDate(entries[k].dateStr).value, RateOrZero(entries[k].rates, target)) in r
    {
      var p := HistoricalRate(toDate(entries[k].dateStr).value, RateOrZero(entries[k].rates, target));
      assert p in multiset(parsed);
    }
  }

  /** The absolute time between a point and the probed date. */
  function Distance(p: HistoricalRate, probe: Instant): real {
    if p.date >= probe then p.date - probe else probe - p.date
  }

  /** `rates.min(by:)` with the comparator "nearer to the probe": it keeps the first
      element and replaces it only with a strictly nearer one. The result is the index
      of the first point at minimal distance, or none for an empty series. */
  function ClosestIndex(rates: seq<HistoricalRate>, probe: Instant): (r: Option<nat>)
    ensures r.None? <==> rates == []
    ensures r.Some? ==> r.value < |rates|
    ensures r.Some? ==> forall j :: 0 <= j < |rates| ==> Distance(rates[r.value], probe) <= Distance(rates[j], probe)
    ensures r.Some? ==> forall j :: 0 <= j < r.value ==> Distance(rates[j], probe) > Distance(rates[r.value], probe)
    decreases |rates|
  {
    if rates == [] then None
    else
      var last := |rates| - 1;
      assert forall j :: 0 <= j < last ==> rates[..last][j] == rates[j];
      match ClosestIndex(rates[..last], probe)
      case None => Some(0)
      case Some(best) =>
        if Distance(rates[last], probe) < Distance(rates[best], probe) then Some(last) else Some(best)
  }

  /** The chart screen's state. */
  class GraphView {
    var baseCurrency: string
    var targetCurrency: string
    var rates: seq<HistoricalRate>
    var isLoading: bool
    var minY: real
    var maxY: real
    var selectedRate: Option<HistoricalRate>

    constructor ()
      ensures baseCurrency == "USD" && targetCurrency == "JPY"
      ensures rates == [] && !isLoading && minY == 0.0 && maxY == 0.0 && selectedRate == None
    {
      baseCurrency, targetCurrency := "USD", "JPY";
      rates, isLoading, minY, maxY, selectedRate := [], false, 0.0, 0.0, None;
    }

    /** The "Load Chart" button, up to the request being in flight. */
    method FetchRates()
      modifies this`isLoading
      ensures isLoading
    {
      isLoading := true;
    }

    /** The request's completion. With no data it returns without touching any state
        (so `isLoading` stays as it was); a decode error only lowers the flag; a decoded
        body assigns the series, both bounds and the flag together. The target currency
        is read when the completion runs. */
    method ChartArrived(result: Fetch<seq<DayRates>>, toDate: string -> Option<Instant>)
      modifies this`rates, this`minY, this`maxY, this`isLoading
      ensures result.NoData? ==> unchanged(this)
      ensures result.Undecodable? ==>
        rates == old(rates) && minY == old(minY) && maxY == old(maxY) && !isLoading
      ensures result.Decoded? ==>
        Series(rates, minY, maxY) == Transform(result.body, old(targetCurrency), toDate) && !isLoading
    {
      if result.Decoded? {
        var series := Transform(result.body, targetCurrency, toDate);
        rates, minY, maxY, isLoading := series.rates, series.minY, series.maxY, false;
      } else if result.Undecodable? {
        isLoading := false;
      }
    }

    /** The drag gesture's `onChanged`: when the chart gives a date for the touch
        location, the nearest point becomes the selection; otherwise nothing changes. */
    method DragChanged(probe: Option<Instant>)
      modifies this`selectedRate
      ensures probe.None? || rates == [] ==> selectedRate == old(selectedRate)
      ensures probe.Some? && rates != [] ==>
        var k := ClosestIndex(rates, probe.value).value;
        selectedRate == Some(rates[k])
    {
      if probe.Some? {
        var closest := ClosestIndex(rates, probe.value);
        if closest.Some? {
          selectedRate := Some(rates[closest.value]);
        }
      }
    }

    /** The drag gesture's `onEnded`. */
    method DragEnded()
      modifies this`selectedRate
      ensures selectedRate == None
    {
      selectedRate := None;
    }
  }
}
