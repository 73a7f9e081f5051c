/** The risk evaluator: it validates the forecast document, aggregates the
    samples into daily summaries and scans the sorted days, raising alerts and
    filling the report as it goes. */
module RiskAnalysis {
  import opened Wrappers
  import Thresholds
  import opened DailyAggregation
  import opened RiskRules

  /** The `list` member of a forecast document: a list of entries, or something else. */
  datatype EntryList = NotAList | Entries(items: seq<Entry>)

  /** The forecast handed to the evaluator: nothing, something that is not a
      dictionary, or a dictionary whose `list` member may be missing. */
  datatype ForecastDocument = Absent | NotADict | Document(list: Option<EntryList>)

  /** The document carries a non-empty list of entries. */
  predicate Usable(doc: ForecastDocument) {
    doc.Document? && doc.list.Some? && doc.list.value.Entries? && doc.list.value.items != []
  }

  /** The report the evaluator returns: the empty report for an unusable
      document or one with a timestamp beyond the platform's range, otherwise the report of the alerts raised over the evaluated
      days of the aggregated forecast. */
  ghost function Assessment(doc: ForecastDocument, thresholds: Thresholds.ThresholdSet,
                            dayOf: Timestamp -> Conversion, today: Day): RiskReport
  {
    if !Usable(doc) || AnyAborts(doc.list.value.items, dayOf) then EmptyReport
    else
      var S := Aggregated(doc.list.value.items, dayOf);
      ReportOf(OverallAlerts(Window(Ascending(S.Keys), today), S, LimitsOf(thresholds)))
  }

  /** The report in the middle of a day: the categories already hold the day's
      `pending` alerts, the overall list only the earlier days' alerts `prev`. */
  ghost function Pending(prev: seq<Alert>, pending: seq<Alert>): RiskReport {
    ReportOf(prev + pending).(overallAlerts := prev)
  }

  /** Pending alerts of other categories leave a category's details as they were. */
  lemma PendingNone(prev: seq<Alert>, pending: seq<Alert>, c: Category)
    requires forall a :: a in pending ==> a.Kind() != c
    ensures Select(prev + pending, c) == Select(prev, c)
  {
    SelectNone(pending, c);
    SelectAppend(prev, pending, c);
  }

  /** Records alert `a` in the report and in the day's alert list. */
  method Record(risks: RiskReport, dayAlerts: seq<Alert>, a: Alert, ghost prev: seq<Alert>)
    returns (risks': RiskReport, dayAlerts': seq<Alert>)
    requires risks == Pending(prev, dayAlerts)
    ensures dayAlerts' == dayAlerts + [a]
    ensures risks' == Pending(prev, dayAlerts')
    ensures risks'.Get(a.Kind()).warning
  {
    RaiseStep(prev, dayAlerts, a);
    assert prev + dayAlerts + [a] == prev + (dayAlerts + [a]);
    risks' := Raise(risks, a);
    dayAlerts' := dayAlerts + [a];
  }

  /** The frost check of day `d`. */
  method CheckFrost(risks: RiskReport, dayAlerts: seq<Alert>, d: Day, s: DaySummary, lim: Limits,
                    ghost prev: seq<Alert>)
    returns (risks': RiskReport, dayAlerts': seq<Alert>)
    requires risks == Pending(prev, dayAlerts)
    ensures dayAlerts' == dayAlerts + FrostCheck(d, s, lim)
    ensures risks' == Pending(prev, dayAlerts')
  {
    risks', dayAlerts' := risks, dayAlerts;
    if s.minTemp <= lim.frost {
      risks', dayAlerts' := Record(risks, dayAlerts, FrostRisk(d, s.minTemp, lim.frost), prev);
    } else {
      assert dayAlerts + [] == dayAlerts;
    }
  }

  /** The flood check of day `d`: the daily total first, the wettest interval only
      when the total stays below its limit. */
  method CheckFlood(risks: RiskReport, dayAlerts: seq<Alert>, d: Day, s: DaySummary, lim: Limits,
                    ghost prev: seq<Alert>)
    returns (risks': RiskReport, dayAlerts': seq<Alert>)
    requires risks == Pending(prev, dayAlerts)
    ensures dayAlerts' == dayAlerts + FloodCheck(d, s, lim)
    ensures risks' == Pending(prev, dayAlerts')
  {
    risks', dayAlerts' := risks, dayAlerts;
    var maxBurst := if s.rainIntervals != [] then Largest(s.rainIntervals) else 0.0;
    if s.totalRain >= lim.floodPerDay {
      risks', dayAlerts' := Record(risks, dayAlerts, FloodRisk(d, s.totalRain, lim.floodPerDay), prev);
    } else if maxBurst >= lim.burstPer3h {
      risks', dayAlerts' := Record(risks, dayAlerts, HeavyRainBurst(d, maxBurst, lim.burstPer3h), prev);
    } else {
      assert dayAlerts + [] == dayAlerts;
    }
  }

  /** The wind check of day `d`. */
  method CheckWind(risks: RiskReport, dayAlerts: seq<Alert>, d: Day, s: DaySummary, lim: Limits,
                   ghost prev: seq<Alert>)
    returns (risks': RiskReport, dayAlerts': seq<Alert>)
    requires risks == Pending(prev, dayAlerts)
    ensures dayAlerts' == dayAlerts + WindCheck(d, s, lim)
    ensures risks' == Pending(prev, dayAlerts')
  {
    risks', dayAlerts' := risks, dayAlerts;
    if s.maxWindSpeed >= lim.wind {
      risks', dayAlerts' := Record(risks, dayAlerts, HighWindRisk(d, s.maxWindSpeed, lim.wind), prev);
    } else {
      assert dayAlerts + [] == dayAlerts;
    }
  }

  /** The humidity check of day `d`: three hours per present reading at or above
      the humidity limit, and at least one present reading. */
  method CheckHumidity(risks: RiskReport, dayAlerts: seq<Alert>, d: Day, s: DaySummary, lim: Limits,
                       ghost prev: seq<Alert>)
    returns (risks': RiskReport, dayAlerts': seq<Alert>)
    requires risks == Pending(prev, dayAlerts)
    ensures dayAlerts' == dayAlerts + HumidityCheck(d, s, lim)
    ensures risks' == Pending(prev, dayAlerts')
  {
    risks', dayAlerts' := risks, dayAlerts;
    var readings := Present(s.humidityReadings);
    var humidHours := CountAtLeast(readings, lim.humidity) * HoursPerSample;
    if humidHours as real >= lim.humidityHours && readings != [] {
      risks', dayAlerts' := Record(risks, dayAlerts, HumidityRisk(d, humidHours, lim.humidity, lim.humidityHours), prev);
    } else {
      assert dayAlerts + [] == dayAlerts;
    }
  }

  /** The checks of one day's own values: frost, flood or burst, wind, humidity. */
  method CheckDay(risks: RiskReport, d: Day, s: DaySummary, lim: Limits, ghost prev: seq<Alert>)
    returns (risks': RiskReport, dayAlerts: seq<Alert>)
    requires risks == ReportOf(prev)
    ensures dayAlerts == DailyChecks(d, s, lim)
    ensures risks' == Pending(prev, dayAlerts)
  {
    assert prev + [] == prev;
    assert [] + FrostCheck(d, s, lim) == FrostCheck(d, s, lim);
    risks', dayAlerts := CheckFrost(risks, [], d, s, lim, prev);
    risks', dayAlerts := CheckFlood(risks', dayAlerts, d, s, lim, prev);
    risks', dayAlerts := CheckWind(risks', dayAlerts, d, s, lim, prev);
    risks', dayAlerts := CheckHumidity(risks', dayAlerts, d, s, lim, prev);
  }

  /** The drought check of the last evaluated day `d`, `dry` being its dry-day counter. */
  method CheckDrought(risks: RiskReport, dayAlerts: seq<Alert>, d: Day, dry: nat, lim: Limits,
                      ghost w: seq<Day>, ghost S: map<Day, DaySummary>, ghost prev: seq<Alert>)
    returns (risks': RiskReport, dayAlerts': seq<Alert>)
    requires w != [] && d == w[|w| - 1] && dry == DryStreak(w, S, lim)
    requires forall a :: a in dayAlerts ==> a.Daily()
    requires risks == Pending(prev, dayAlerts)
    ensures dayAlerts' == dayAlerts + DroughtCheck(w, prev, S, lim)
    ensures risks' == Pending(prev, dayAlerts')
  {
    PendingNone(prev, dayAlerts, Drought);
    assert risks.drought.warning == DroughtRecorded(prev);
    risks', dayAlerts' := risks, dayAlerts;
    if dry as real >= lim.droughtDays && !risks.drought.warning {
      var start := d - (dry - 1);
      assert DroughtCheck(w, prev, S, lim) == [DroughtRisk(dry, lim.droughtMm, start)];
      risks', dayAlerts' := Record(risks, dayAlerts, DroughtRisk(dry, lim.droughtMm, start), prev);
    } else {
      assert DroughtCheck(w, prev, S, lim) == [];
      assert dayAlerts + [] == dayAlerts;
    }
  }

  /** The heatwave check of the last evaluated day `d`, `hot` being its hot-day counter;
      no alert when an earlier detail already ends on that day. */
  method CheckHeatwave(risks: RiskReport, dayAlerts: seq<Alert>, d: Day, hot: nat, lim: Limits,
                       ghost w: seq<Day>, ghost S: map<Day, DaySummary>, ghost prev: seq<Alert>)
    returns (risks': RiskReport, dayAlerts': seq<Alert>)
    requires w != [] && d == w[|w| - 1] && hot == HotStreak(w, S, lim)
    requires forall a :: a in dayAlerts ==> !a.HeatwaveRisk?
    requires risks == Pending(prev, dayAlerts)
    ensures dayAlerts' == dayAlerts + HeatCheck(w, prev, S, lim)
    ensures risks' == Pending(prev, dayAlerts')
  {
    PendingNone(prev, dayAlerts, Heatwave);
    risks', dayAlerts' := risks, dayAlerts;
    if hot as real >= lim.heatDays {
      var alreadyAlerted := EndsOn(risks.heatwave.details, d);
      if !alreadyAlerted {
        risks', dayAlerts' := Record(risks, dayAlerts, HeatwaveRisk(hot, lim.heatTemp, d), prev);
      } else {
        assert dayAlerts + [] == dayAlerts;
      }
    } else {
      assert dayAlerts + [] == dayAlerts;
    }
  }

  /** Once the window is full at position `i`, the days after it are not evaluated. */
  lemma WindowFull(days: seq<Day>, i: nat, today: Day)
    requires i < |days| && |Upcoming(days[..i + 1], today)| == Horizon
    ensures Window(days, today) == Upcoming(days[..i + 1], today)
  {
    UpcomingAppend(days[..i + 1], days[i + 1..], today);
    assert days == days[..i + 1] + days[i + 1..];
  }

  /** One more day of the sorted sequence, with respect to the upcoming days. */
  lemma UpcomingNext(days: seq<Day>, i: nat, today: Day)
    requires i < |days|
    ensures Upcoming(days[..i + 1], today)
         == Upcoming(days[..i], today) + if days[i] >= today then [days[i]] else []
  {
    assert days[..i + 1][..i] == days[..i];
  }

  /** The evaluation of day `d` with summary `s`, after the days `w`: the day's
      own checks, then the drought and heatwave counters and their checks; the
      day's alerts then join the overall list. */
  method EvaluateDay(risks: RiskReport, d: Day, s: DaySummary, dry: nat, hot: nat, lim: Limits,
                     ghost w: seq<Day>, ghost S: map<Day, DaySummary>)
    returns (risks': RiskReport, dry': nat, hot': nat)
    requires d in S && S[d] == s
    requires risks == ReportOf(OverallAlerts(w, S, lim))
    requires dry == DryStreak(w, S, lim) && hot == HotStreak(w, S, lim)
    ensures risks' == ReportOf(OverallAlerts(w + [d], S, lim))
    ensures dry' == DryStreak(w + [d], S, lim) && hot' == HotStreak(w + [d], S, lim)
  {
    ghost var w' := w + [d];
    ghost var prev := OverallAlerts(w, S, lim);
    DayStep(w, d, S, lim);
    var dayAlerts;
    risks', dayAlerts := CheckDay(risks, d, s, lim, prev);
    DailyChecksDay(d, s, lim);

    if s.totalRain <= lim.droughtMm {
      dry' := dry + 1;
    } else {
      dry' := 0;
    }
    risks', dayAlerts := CheckDrought(risks', dayAlerts, d, dry', lim, w', S, prev);

    NoHeatwaveYet(w', prev, S, lim);
    if s.maxTemp >= lim.heatTemp {
      hot' := hot + 1;
    } else {
      hot' := 0;
    }
    risks', dayAlerts := CheckHeatwave(risks', dayAlerts, d, hot', lim, w', S, prev);

    risks' := risks'.(overallAlerts := risks'.overallAlerts + dayAlerts);
  }

  /** Evaluating one more day `d`: its alerts follow the earlier ones, and its
      counters extend or reset the earlier streaks. */
  lemma DayStep(w: seq<Day>, d: Day, S: map<Day, DaySummary>, lim: Limits)
    ensures var prev := OverallAlerts(w, S, lim);
      OverallAlerts(w + [d], S, lim) == prev + DayAlerts(w + [d], prev, S, lim)
    ensures DryStreak(w + [d], S, lim) == if At(S, d).totalRain <= lim.droughtMm then DryStreak(w, S, lim) + 1 else 0
    ensures HotStreak(w + [d], S, lim) == if At(S, d).maxTemp >= lim.heatTemp then HotStreak(w, S, lim) + 1 else 0
  {
    assert (w + [d])[..|w|] == w;
  }

  /** Before the heatwave check, a day's alerts hold no heatwave alert. */
  lemma NoHeatwaveYet(w: seq<Day>, prev: seq<Alert>, S: map<Day, DaySummary>, lim: Limits)
    requires w != []
    ensures var d := w[|w| - 1];
      forall a :: a in DailyChecks(d, At(S, d), lim) + DroughtCheck(w, prev, S, lim) ==> !a.HeatwaveRisk?
  {
    var d := w[|w| - 1];
    DailyChecksDay(d, At(S, d), lim);
  }


  /** The whole of a sequence as a slice. */
  lemma WholePrefix(days: seq<Day>)
    ensures days[..|days|] == days
  {
  }

  /** The scan over the sorted days: days before `today` are skipped, each
      evaluated day raises its alerts, and the scan stops after five evaluated days. */
  method Evaluate(daily: map<Day, DaySummary>, thresholds: Thresholds.ThresholdSet, today: Day)
    returns (risks: RiskReport)
    ensures risks == ReportOf(OverallAlerts(Window(Ascending(daily.Keys), today), daily, LimitsOf(thresholds)))
  {
    risks := EmptyReport;
    var lim := LimitsOf(thresholds);
    var dry: nat := 0;
    var hot: nat := 0;
    var processed: nat := 0;
    var days := Ascending(daily.Keys);
    ghost var w: seq<Day> := [];
    assert ReportOf([]) == EmptyReport;

    var i := 0;
    while i < |days|
      invariant 0 <= i <= |days|
      invariant w == Upcoming(days[..i], today)
      invariant processed == |w| < Horizon
      invariant dry == DryStreak(w, daily, lim) && hot == HotStreak(w, daily, lim)
      invariant risks == ReportOf(OverallAlerts(w, daily, lim))
    {
      var d := days[i];
      UpcomingNext(days, i, today);
      if d < today {
        i := i + 1;
        continue;
      }
      processed := processed + 1;
      risks, dry, hot := EvaluateDay(risks, d, daily[d], dry, hot, lim, w, daily);
      w := w + [d];
      if processed >= Horizon {
        WindowFull(days, i, today);
        break;
      }
      i := i + 1;
    }
    if i == |days| {
      WholePrefix(days);
    }
  }

  /** The whole evaluation: an unusable document gives the empty report;
      otherwise the samples are aggregated per day and the days are scanned. */
  method Assess(doc: ForecastDocument, thresholds: Thresholds.ThresholdSet,
                dayOf: Timestamp -> Conversion, today: Day)
    returns (risks: RiskReport)
    ensures !Usable(doc) ==> risks == EmptyReport
    ensures Usable(doc) && AnyAborts(doc.list.value.items, dayOf) ==> risks == EmptyReport
    ensures risks == Assessment(doc, thresholds, dayOf, today)
  {
    if doc.Absent? || doc.NotADict? {
      return EmptyReport;
    }
    if doc.list.None? || doc.list.value.NotAList? || doc.list.value.items == [] {
      return EmptyReport;
    }
    var daily, aborted := Aggregate(doc.list.value.items, dayOf);
    if aborted {
      return EmptyReport;
    }
    risks := Evaluate(daily, thresholds, today);
  }
}
