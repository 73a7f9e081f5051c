/** The daily aggregator: groups the sub-daily forecast samples into one
    running summary per calendar day. */
module DailyAggregation {
  import opened Wrappers
  import opened Numeric

  /** A calendar day, as a day number (the date of a timestamp in the forecast's local time). */
  type Day = int
  /** Seconds since the epoch, as carried in a sample's `dt` field. */
  type Timestamp = int

  /** The measurements of one sample; each may be absent from the record. */
  datatype Reading = Reading(
    tempMax: Option<real>,   // main.temp_max
    tempMin: Option<real>,   // main.temp_min
    humidity: Option<real>,  // main.humidity
    windSpeed: Option<real>, // wind.speed
    rain3h: Option<real>     // rain.3h
  )

  /** One element of the forecast's sample list: either something that is not a
      record at all, or a record with an optional timestamp. */
  datatype Entry = NotARecord | Record(dt: Option<Timestamp>, reading: Reading)

  /** The outcome of converting a timestamp to a local calendar day: a day; a
      date whose year the calendar cannot hold (the sample is skipped); or a
      timestamp beyond the platform's time range (the whole evaluation stops). */
  datatype Conversion = Converted(day: Day) | YearOutOfRange | PlatformOverflow

  /** Entries that are not records, lack a timestamp, or whose timestamp has no
      representable date are skipped. */
  predicate Accepted(e: Entry, dayOf: Timestamp -> Conversion) {
    e.Record? && e.dt.Some? && dayOf(e.dt.value).Converted?
  }

  /** The day of an accepted entry. */
  function EntryDay(e: Entry, dayOf: Timestamp -> Conversion): Day
    requires Accepted(e, dayOf)
  {
    dayOf(e.dt.value).day
  }

  /** An entry whose timestamp exceeds the platform's time range stops the evaluation. */
  predicate Aborts(e: Entry, dayOf: Timestamp -> Conversion) {
    e.Record? && e.dt.Some? && dayOf(e.dt.value).PlatformOverflow?
  }

  /** Some entry of `es` stops the evaluation. */
  predicate AnyAborts(es: seq<Entry>, dayOf: Timestamp -> Conversion) {
    exists i :: 0 <= i < |es| && Aborts(es[i], dayOf)
  }

  /** The running summary of one day. */
  datatype DaySummary = DaySummary(
    maxTemp: real,
    minTemp: real,
    totalRain: real,
    maxWindSpeed: real,
    humidityReadings: seq<Option<real>>,
    rainIntervals: seq<real>,
    count: nat
  )

  const MaxTempSeed := -100.0
  const MinTempSeed := 200.0

  /** The summary a day starts from when its first sample arrives. */
  const FreshSummary := DaySummary(MaxTempSeed, MinTempSeed, 0.0, 0.0, [], [], 0)

  /** The rain of one sample's interval; an absent value counts as 0. */
  function RainOf(r: Reading): real {
    r.rain3h.GetOr(0.0)
  }

  /** One sample folded into its day's running summary. An absent temperature
      leaves the running extreme as it is; an absent wind speed counts as 0;
      humidity is recorded even when absent; only positive rain is kept as an interval. */
  function Fold(s: DaySummary, r: Reading): DaySummary {
    var rain := RainOf(r);
    DaySummary(
      Max(s.maxTemp, r.tempMax.GetOr(s.maxTemp)),
      Min(s.minTemp, r.tempMin.GetOr(s.minTemp)),
      s.totalRain + rain,
      Max(s.maxWindSpeed, r.windSpeed.GetOr(0.0)),
      s.humidityReadings + [r.humidity],
      if rain > 0.0 then s.rainIntervals + [rain] else s.rainIntervals,
      s.count + 1
    )
  }

  /** The summary of a day whose samples arrived in the order `rs`. */
  function Summarize(rs: seq<Reading>): DaySummary {
    if rs == [] then FreshSummary else Fold(Summarize(rs[..|rs| - 1]), rs[|rs| - 1])
  }

  /** The readings of the accepted entries of day `d`, in arrival order. */
  function SamplesOn(es: seq<Entry>, dayOf: Timestamp -> Conversion, d: Day): seq<Reading> {
    if es == [] then []
    else
      var e := es[|es| - 1];
      SamplesOn(es[..|es| - 1], dayOf, d) + if Accepted(e, dayOf) && EntryDay(e, dayOf) == d then [e.reading] else []
  }

  /** The days of the accepted entries. */
  function DaysOf(es: seq<Entry>, dayOf: Timestamp -> Conversion): set<Day> {
    if es == [] then {}
    else
      var e := es[|es| - 1];
      DaysOf(es[..|es| - 1], dayOf) + if Accepted(e, dayOf) then {EntryDay(e, dayOf)} else {}
  }

  /** The daily summaries of a forecast: one per day that has an accepted sample. */
  ghost function Aggregated(es: seq<Entry>, dayOf: Timestamp -> Conversion): map<Day, DaySummary> {
    map d | d in DaysOf(es, dayOf) :: Summarize(SamplesOn(es, dayOf, d))
  }

  // ---------------------------------------------------------------------------
  // Reference definitions: what a summary's fields are, stated without the fold.

  /** Sum of the interval rains, absent ones counting as 0. */
  function RainTotal(rs: seq<Reading>): real {
    if rs == [] then 0.0 else RainOf(rs[0]) + RainTotal(rs[1..])
  }

  /** The strictly positive interval rains, in arrival order. */
  function PositiveRains(rs: seq<Reading>): seq<real> {
    if rs == [] then []
    else (if RainOf(rs[0]) > 0.0 then [RainOf(rs[0])] else []) + PositiveRains(rs[1..])
  }

  /** `m` is the largest of `seed` and every present maximum temperature. */
  ghost predicate IsMaxTemp(m: real, rs: seq<Reading>) {
    && m >= MaxTempSeed
    && (forall i :: 0 <= i < |rs| && rs[i].tempMax.Some? ==> rs[i].tempMax.value <= m)
    && (m == MaxTempSeed || exists i :: 0 <= i < |rs| && rs[i].tempMax == Some(m))
  }

  /** `m` is the smallest of the seed and every present minimum temperature. */
  ghost predicate IsMinTemp(m: real, rs: seq<Reading>) {
    && m <= MinTempSeed
    && (forall i :: 0 <= i < |rs| && rs[i].tempMin.Some? ==> m <= rs[i].tempMin.value)
    && (m == MinTempSeed || exists i :: 0 <= i < |rs| && rs[i].tempMin == Some(m))
  }

  /** `m` is the largest of 0 and every present wind speed. */
  ghost predicate IsMaxWind(m: real, rs: seq<Reading>) {
    && m >= 0.0
    && (forall i :: 0 <= i < |rs| && rs[i].windSpeed.Some? ==> rs[i].windSpeed.value <= m)
    && (m == 0.0 || exists i :: 0 <= i < |rs| && rs[i].windSpeed == Some(m))
  }

  /** `s` is the summary of a day whose samples are `rs`. */
  ghost predicate Summarizes(s: DaySummary, rs: seq<Reading>) {
    && s.count == |rs|
    && |s.humidityReadings| == |rs|
    && (forall i :: 0 <= i < |rs| ==> s.humidityReadings[i] == rs[i].humidity)
    && IsMaxTemp(s.maxTemp, rs)
    && IsMinTemp(s.minTemp, rs)
    && IsMaxWind(s.maxWindSpeed, rs)
    && s.totalRain == RainTotal(rs)
    && s.rainIntervals == PositiveRains(rs)
  }

  lemma {:induction false} RainTotalSnoc(rs: seq<Reading>, r: Reading)
    ensures RainTotal(rs + [r]) == RainTotal(rs) + RainOf(r)
  {
    if rs != [] {
      assert (rs + [r])[1..] == rs[1..] + [r];
      RainTotalSnoc(rs[1..], r);
    }
  }

  lemma {:induction false} PositiveRainsSnoc(rs: seq<Reading>, r: Reading)
    ensures PositiveRains(rs + [r]) == PositiveRains(rs) + if RainOf(r) > 0.0 then [RainOf(r)] else []
  {
    if rs != [] {
      assert (rs + [r])[1..] == rs[1..] + [r];
      PositiveRainsSnoc(rs[1..], r);
    }
  }

  /** Folding one more sample keeps a summary faithful to its samples. */
  lemma FoldSummarizes(s: DaySummary, rs: seq<Reading>, r: Reading)
    requires Summarizes(s, rs)
    ensures Summarizes(Fold(s, r), rs + [r])
  {
    var rs' := rs + [r];
    assert forall i :: 0 <= i < |rs| ==> rs'[i] == rs[i];
    RainTotalSnoc(rs, r);
    PositiveRainsSnoc(rs, r);
    var t := Fold(s, r);
    if t.maxTemp != MaxTempSeed {
      if t.maxTemp == s.maxTemp && s.maxTemp != MaxTempSeed {
        var i :| 0 <= i < |rs| && rs[i].tempMax == Some(s.maxTemp);
        assert rs'[i].tempMax == Some(t.maxTemp);
      } else {
        assert rs'[|rs|].tempMax == Some(t.maxTemp);
      }
    }
    if t.minTemp != MinTempSeed {
      if t.minTemp == s.minTemp && s.minTemp != MinTempSeed {
        var i :| 0 <= i < |rs| && rs[i].tempMin == Some(s.minTemp);
        assert rs'[i].tempMin == Some(t.minTemp);
      } else {
        assert rs'[|rs|].tempMin == Some(t.minTemp);
      }
    }
    if t.maxWindSpeed != 0.0 {
      if t.maxWindSpeed == s.maxWindSpeed && s.maxWindSpeed != 0.0 {
        var i :| 0 <= i < |rs| && rs[i].windSpeed == Some(s.maxWindSpeed);
        assert rs'[i].windSpeed == Some(t.maxWindSpeed);
      } else {
        assert rs'[|rs|].windSpeed == Some(t.maxWindSpeed);
      }
    }
  }

  /** The fold computes exactly the reference summary: sentinel-seeded
      extremes, the rain sum, the positive intervals in order, every humidity
      reading in order and the sample count. */
  lemma {:induction false} SummarizeMeaning(rs: seq<Reading>)
    ensures Summarizes(Summarize(rs), rs)
  {
    if rs != [] {
      var p := rs[..|rs| - 1];
      SummarizeMeaning(p);
      FoldSummarizes(Summarize(p), p, rs[|rs| - 1]);
      assert p + [rs[|rs| - 1]] == rs;
    }
  }

  /** A day appears in the summaries exactly when some accepted entry falls on it. */
  lemma {:induction false} DaysOfMeaning(es: seq<Entry>, dayOf: Timestamp -> Conversion, d: Day)
    ensures d in DaysOf(es, dayOf) <==> SamplesOn(es, dayOf, d) != []
    ensures d in DaysOf(es, dayOf) <==> exists i :: 0 <= i < |es| && Accepted(es[i], dayOf) && EntryDay(es[i], dayOf) == d
  {
    if es != [] {
      var p := es[..|es| - 1];
      DaysOfMeaning(p, dayOf, d);
      assert forall i :: 0 <= i < |p| ==> es[i] == p[i];
      if exists i :: 0 <= i < |es| && Accepted(es[i], dayOf) && EntryDay(es[i], dayOf) == d {
        var i :| 0 <= i < |es| && Accepted(es[i], dayOf) && EntryDay(es[i], dayOf) == d;
        if i < |p| {
          assert Accepted(p[i], dayOf) && EntryDay(p[i], dayOf) == d;
        }
      }
    }
  }

  /** Each day's sample count is the number of accepted entries on that day, and
      there is one humidity slot per sample. */
  lemma {:induction false} SamplesOnCount(es: seq<Entry>, dayOf: Timestamp -> Conversion, d: Day)
    ensures |SamplesOn(es, dayOf, d)| == CountOn(es, dayOf, d)
    ensures Summarize(SamplesOn(es, dayOf, d)).count == CountOn(es, dayOf, d)
    ensures |Summarize(SamplesOn(es, dayOf, d)).humidityReadings| == CountOn(es, dayOf, d)
  {
    if es != [] {
      var p := es[..|es| - 1];
      SamplesOnCount(p, dayOf, d);
      CountOnSnoc(p, es[|es| - 1], dayOf, d);
      assert p + [es[|es| - 1]] == es;
    }
    SummarizeMeaning(SamplesOn(es, dayOf, d));
  }

  lemma {:induction false} CountOnSnoc(es: seq<Entry>, e: Entry, dayOf: Timestamp -> Conversion, d: Day)
    ensures CountOn(es + [e], dayOf, d) == CountOn(es, dayOf, d) + if Accepted(e, dayOf) && EntryDay(e, dayOf) == d then 1 else 0
  {
    if es != [] {
      assert (es + [e])[1..] == es[1..] + [e];
      CountOnSnoc(es[1..], e, dayOf, d);
    }
  }

  /** The number of accepted entries whose timestamp falls on day `d`. */
  function CountOn(es: seq<Entry>, dayOf: Timestamp -> Conversion, d: Day): nat {
    if es == [] then 0
    else if Accepted(es[0], dayOf) && EntryDay(es[0], dayOf) == d then 1 + CountOn(es[1..], dayOf, d)
    else CountOn(es[1..], dayOf, d)
  }

  /** An entry that is not a record, lacks a timestamp or has no representable
      date leaves every daily summary as it was. */
  lemma SkippedEntry(es: seq<Entry>, e: Entry, dayOf: Timestamp -> Conversion)
    requires !Accepted(e, dayOf)
    ensures Aggregated(es + [e], dayOf) == Aggregated(es, dayOf)
  {
    SkipStep(Aggregated(es, dayOf), es, e, dayOf);
    HoldsAggregated(Aggregated(es, dayOf), es + [e], dayOf);
  }

  /** `daily` holds exactly the summaries of the accepted entries of `es`. */
  ghost predicate Holds(daily: map<Day, DaySummary>, es: seq<Entry>, dayOf: Timestamp -> Conversion) {
    && daily.Keys == DaysOf(es, dayOf)
    && forall d :: d in daily ==> daily[d] == Summarize(SamplesOn(es, dayOf, d))
  }

  /** Faithful summaries of all the entries are the aggregated forecast. */
  lemma HoldsAggregated(daily: map<Day, DaySummary>, es: seq<Entry>, dayOf: Timestamp -> Conversion)
    requires Holds(daily, es, dayOf)
    ensures daily == Aggregated(es, dayOf)
  {
  }

  /** A skipped entry keeps the summaries faithful. */
  lemma SkipStep(daily: map<Day, DaySummary>, es: seq<Entry>, e: Entry, dayOf: Timestamp -> Conversion)
    requires Holds(daily, es, dayOf) && !Accepted(e, dayOf)
    ensures Holds(daily, es + [e], dayOf)
  {
    DaysOfSnoc(es, e, dayOf);
    assert DaysOf(es, dayOf) + {} == DaysOf(es, dayOf);
    forall x | x in daily
      ensures daily[x] == Summarize(SamplesOn(es + [e], dayOf, x))
    {
      SamplesOnSnoc(es, e, dayOf, x);
      assert SamplesOn(es, dayOf, x) + [] == SamplesOn(es, dayOf, x);
    }
  }

  /** The samples of day `x` after one more entry. */
  lemma SamplesOnSnoc(es: seq<Entry>, e: Entry, dayOf: Timestamp -> Conversion, x: Day)
    ensures SamplesOn(es + [e], dayOf, x)
         == SamplesOn(es, dayOf, x) + if Accepted(e, dayOf) && EntryDay(e, dayOf) == x then [e.reading] else []
  {
    assert (es + [e])[..|es|] == es;
  }

  /** The days after one more entry. */
  lemma DaysOfSnoc(es: seq<Entry>, e: Entry, dayOf: Timestamp -> Conversion)
    ensures DaysOf(es + [e], dayOf) == DaysOf(es, dayOf) + if Accepted(e, dayOf) then {EntryDay(e, dayOf)} else {}
  {
    assert (es + [e])[..|es|] == es;
  }

  /** Summarising one more sample folds it into the earlier summary. */
  lemma SummarizeSnoc(rs: seq<Reading>, r: Reading)
    ensures Summarize(rs + [r]) == Fold(Summarize(rs), r)
  {
    assert (rs + [r])[..|rs|] == rs;
  }

  /** An accepted entry, folded into its day's summary (a fresh one when the day
      is new), keeps the summaries faithful. */
  lemma FoldStep(daily: map<Day, DaySummary>, es: seq<Entry>, e: Entry, dayOf: Timestamp -> Conversion)
    requires Holds(daily, es, dayOf) && Accepted(e, dayOf)
    ensures var d := EntryDay(e, dayOf);
      var m := if d in daily then daily else daily[d := FreshSummary];
      Holds(m[d := Fold(m[d], e.reading)], es + [e], dayOf)
  {
    var d := EntryDay(e, dayOf);
    var m := if d in daily then daily else daily[d := FreshSummary];
    var m' := m[d := Fold(m[d], e.reading)];
    var before := SamplesOn(es, dayOf, d);
    DaysOfMeaning(es, dayOf, d);
    assert m[d] == Summarize(before);
    SamplesOnSnoc(es, e, dayOf, d);
    SummarizeSnoc(before, e.reading);
    DaysOfSnoc(es, e, dayOf);
    assert m'[d] == Summarize(SamplesOn(es + [e], dayOf, d));
    forall x | x in m' && x != d
      ensures m'[x] == Summarize(SamplesOn(es + [e], dayOf, x))
    {
      SamplesOnSnoc(es, e, dayOf, x);
      assert SamplesOn(es, dayOf, x) + [] == SamplesOn(es, dayOf, x);
      assert x in daily && m'[x] == daily[x];
    }
  }

  /** Folds the forecast's entries, in order, into one summary per day. It stops
      at the first entry whose timestamp exceeds the platform's time range,
      reporting `aborted`; the evaluation then discards the summaries. */
  method Aggregate(entries: seq<Entry>, dayOf: Timestamp -> Conversion)
    returns (daily: map<Day, DaySummary>, aborted: bool)
    ensures aborted <==> AnyAborts(entries, dayOf)
    ensures !aborted ==> daily.Keys == DaysOf(entries, dayOf)
    ensures !aborted ==> forall d :: d in daily ==> daily[d] == Summarize(SamplesOn(entries, dayOf, d))
    ensures !aborted ==> daily == Aggregated(entries, dayOf)
  {
    daily := map[];
    aborted := false;
    for i := 0 to |entries|
      invariant Holds(daily, entries[..i], dayOf)
      invariant forall j :: 0 <= j < i ==> !Aborts(entries[j], dayOf)
    {
      var entry := entries[i];
      assert entries[..i + 1] == entries[..i] + [entry];
      if !entry.Record? || entry.dt.None? {
        SkipStep(daily, entries[..i], entry, dayOf);
        continue;
      }
      var conversion := dayOf(entry.dt.value);
      if conversion.PlatformOverflow? {
        assert Aborts(entries[i], dayOf);
        aborted := true;
        return;
      }
      if conversion.YearOutOfRange? {
        SkipStep(daily, entries[..i], entry, dayOf);
        continue;
      }
      FoldStep(daily, entries[..i], entry, dayOf);
      var day := conversion.day;
      if day !in daily {
        daily := daily[day := FreshSummary];
      }
      var summary := daily[day];
      daily := daily[day := Fold(summary, entry.reading)];
    }
    assert entries[..|entries|] == entries;
    HoldsAggregated(daily, entries, dayOf);
  }
}
