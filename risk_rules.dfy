/** The risk evaluator's rules, stated as functions of the evaluated days: the
    alerts each day raises, the drought and heatwave streaks, the five-day
    window, and the report the alerts make up. */
module RiskRules {
  import opened Wrappers
  import Thresholds
  import opened DailyAggregation

  datatype Category = Drought | FloodHeavyRain | Heatwave | Frost | HighWind | ProlongedHighHumidity

  /** One alert, carrying the values its message reports. */
  datatype Alert =
    | FrostRisk(day: Day, minTemp: real, threshold: real)
    | FloodRisk(day: Day, totalRain: real, threshold: real)
    | HeavyRainBurst(day: Day, maxBurst: real, threshold: real)
    | HighWindRisk(day: Day, maxWind: real, threshold: real)
    | HumidityRisk(day: Day, hours: nat, threshold: real, durationThreshold: real)
    | DroughtRisk(dryDays: nat, rainThreshold: real, startDay: Day)
    | HeatwaveRisk(hotDays: nat, tempThreshold: real, endDay: Day)
  {
    /** The category whose details list the alert goes to. */
    function Kind(): Category {
      match this
      case FrostRisk(_, _, _) => Frost
      case FloodRisk(_, _, _) => FloodHeavyRain
      case HeavyRainBurst(_, _, _) => FloodHeavyRain
      case HighWindRisk(_, _, _) => HighWind
      case HumidityRisk(_, _, _, _) => ProlongedHighHumidity
      case DroughtRisk(_, _, _) => Drought
      case HeatwaveRisk(_, _, _) => Heatwave
    }

    /** Alerts raised by a single day's own values (they carry that day). */
    predicate Daily() {
      !DroughtRisk? && !HeatwaveRisk?
    }
  }

  datatype CategoryReport = CategoryReport(warning: bool, details: seq<Alert>)

  /** The report: one entry per category plus every alert in discovery order. */
  datatype RiskReport = RiskReport(
    drought: CategoryReport,
    floodHeavyRain: CategoryReport,
    heatwave: CategoryReport,
    frost: CategoryReport,
    highWind: CategoryReport,
    prolongedHighHumidity: CategoryReport,
    overallAlerts: seq<Alert>
  ) {
    function Get(c: Category): CategoryReport {
      match c
      case Drought => drought
      case FloodHeavyRain => floodHeavyRain
      case Heatwave => heatwave
      case Frost => frost
      case HighWind => highWind
      case ProlongedHighHumidity => prolongedHighHumidity
    }
  }

  const Quiet := CategoryReport(false, [])

  /** The report before any day is evaluated: nothing triggered, nothing recorded. */
  const EmptyReport := RiskReport(Quiet, Quiet, Quiet, Quiet, Quiet, Quiet, [])

  /** The alerts of category `c`, in order. */
  function Select(alerts: seq<Alert>, c: Category): seq<Alert> {
    if alerts == [] then []
    else Select(alerts[..|alerts| - 1], c) + if alerts[|alerts| - 1].Kind() == c then [alerts[|alerts| - 1]] else []
  }

  function CategoryOf(alerts: seq<Alert>, c: Category): CategoryReport {
    var ds := Select(alerts, c);
    CategoryReport(ds != [], ds)
  }

  /** The report whose overall alert list is `alerts`: each category lists its
      own alerts and is triggered when it has one. */
  function ReportOf(alerts: seq<Alert>): RiskReport {
    RiskReport(
      CategoryOf(alerts, Drought), CategoryOf(alerts, FloodHeavyRain), CategoryOf(alerts, Heatwave),
      CategoryOf(alerts, Frost), CategoryOf(alerts, HighWind), CategoryOf(alerts, ProlongedHighHumidity),
      alerts)
  }

  /** `r` with alert `a` recorded under its category (the flag raised, the alert appended). */
  function Raise(r: RiskReport, a: Alert): RiskReport {
    var cr := CategoryReport(true, r.Get(a.Kind()).details + [a]);
    match a.Kind()
    case Drought => r.(drought := cr)
    case FloodHeavyRain => r.(floodHeavyRain := cr)
    case Heatwave => r.(heatwave := cr)
    case Frost => r.(frost := cr)
    case HighWind => r.(highWind := cr)
    case ProlongedHighHumidity => r.(prolongedHighHumidity := cr)
  }

  // ---------------------------------------------------------------------------
  // Thresholds as the evaluator reads them (with the documented fallbacks).

  datatype Limits = Limits(
    frost: real, floodPerDay: real, burstPer3h: real, wind: real,
    humidity: real, humidityHours: real,
    droughtMm: real, droughtDays: real, heatTemp: real, heatDays: real)

  function LimitsOf(t: Thresholds.ThresholdSet): Limits {
    Limits(
      Thresholds.Lookup(t, Thresholds.FrostRiskTempC, 2.0),
      Thresholds.Lookup(t, Thresholds.FloodRiskMmPerDay, 50.0),
      Thresholds.Lookup(t, Thresholds.HeavyRainMmPer3h, 15.0),
      Thresholds.Lookup(t, Thresholds.HighWindSpeedMs, 15.0),
      Thresholds.Lookup(t, Thresholds.HighHumidityPerc, 85.0),
      Thresholds.Lookup(t, Thresholds.HighHumidityDurationH, 12.0),
      Thresholds.Lookup(t, Thresholds.DroughtRiskMm, 2.0),
      Thresholds.Lookup(t, Thresholds.DroughtRiskDays, 7.0),
      Thresholds.Lookup(t, Thresholds.HeatwaveTempC, 38.0),
      Thresholds.Lookup(t, Thresholds.HeatwaveDays, 3.0))
  }

  /** The evaluator's fallbacks for absent thresholds are the base thresholds:
      evaluating with the base set is evaluating with an empty one. */
  lemma DefaultsAreFallbacks()
    ensures LimitsOf(Thresholds.DefaultThresholds) == LimitsOf(map[])
  {
  }

  // ---------------------------------------------------------------------------
  // Per-day checks.

  /** Each humidity reading stands for one three-hour sample. */
  const HoursPerSample: nat := 3

  /** The summary of day `d`; every evaluated day has one. */
  function At(S: map<Day, DaySummary>, d: Day): DaySummary {
    if d in S then S[d] else FreshSummary
  }

  function Largest(xs: seq<real>): (m: real)
    requires xs != []
    ensures m in xs
    ensures forall x :: x in xs ==> x <= m
  {
    if |xs| == 1 then xs[0]
    else
      assert xs == [xs[0]] + xs[1..];
      var rest := Largest(xs[1..]);
      if xs[0] >= rest then xs[0] else rest
  }

  /** The wettest single interval of the day, 0 when no interval had rain. */
  function MaxBurst(s: DaySummary): real {
    if s.rainIntervals == [] then 0.0 else Largest(s.rainIntervals)
  }

  /** The humidity readings that are present, in order. */
  function Present(hs: seq<Option<real>>): (vs: seq<real>)
    ensures |vs| <= |hs|
    ensures forall v :: v in vs <==> Some(v) in hs
  {
    if hs == [] then []
    else
      assert forall v :: Some(v) in hs <==> hs[0] == Some(v) || Some(v) in hs[1..];
      (if hs[0].Some? then [hs[0].value] else []) + Present(hs[1..])
  }

  /** How many of `xs` reach `t`. */
  function CountAtLeast(xs: seq<real>, t: real): (n: nat)
    ensures n <= |xs|
    ensures n == 0 <==> forall i :: 0 <= i < |xs| ==> xs[i] < t
  {
    if xs == [] then 0
    else
      assert forall i :: 1 <= i < |xs| ==> xs[1..][i - 1] == xs[i];
      (if xs[0] >= t then 1 else 0) + CountAtLeast(xs[1..], t)
  }

  /** Approximate hours at or above the humidity threshold. */
  function HumidHours(s: DaySummary, lim: Limits): nat {
    HoursPerSample * CountAtLeast(Present(s.humidityReadings), lim.humidity)
  }

  function FrostCheck(d: Day, s: DaySummary, lim: Limits): seq<Alert> {
    if s.minTemp <= lim.frost then [FrostRisk(d, s.minTemp, lim.frost)] else []
  }

  /** The daily total is checked first; the single-interval burst only when the total did not trigger. */
  function FloodCheck(d: Day, s: DaySummary, lim: Limits): seq<Alert> {
    if s.totalRain >= lim.floodPerDay then [FloodRisk(d, s.totalRain, lim.floodPerDay)]
    else if MaxBurst(s) >= lim.burstPer3h then [HeavyRainBurst(d, MaxBurst(s), lim.burstPer3h)]
    else []
  }

  function WindCheck(d: Day, s: DaySummary, lim: Limits): seq<Alert> {
    if s.maxWindSpeed >= lim.wind then [HighWindRisk(d, s.maxWindSpeed, lim.wind)] else []
  }

  function HumidityCheck(d: Day, s: DaySummary, lim: Limits): seq<Alert> {
    if HumidHours(s, lim) as real >= lim.humidityHours && Present(s.humidityReadings) != [] then
      [HumidityRisk(d, HumidHours(s, lim), lim.humidity, lim.humidityHours)]
    else []
  }

  /** The alerts a day raises from its own values, in the order they are checked. */
  function DailyChecks(d: Day, s: DaySummary, lim: Limits): seq<Alert> {
    FrostCheck(d, s, lim) + FloodCheck(d, s, lim) + WindCheck(d, s, lim) + HumidityCheck(d, s, lim)
  }

  // ---------------------------------------------------------------------------
  // Streaks over the evaluated days `w` (consecutive in the evaluation order).

  /** The number of trailing days of `w` whose rain is at most the drought limit. */
  function DryStreak(w: seq<Day>, S: map<Day, DaySummary>, lim: Limits): nat {
    if w == [] then 0
    else if At(S, w[|w| - 1]).totalRain <= lim.droughtMm then DryStreak(w[..|w| - 1], S, lim) + 1
    else 0
  }

  /** The number of trailing days of `w` whose maximum reaches the heatwave temperature. */
  function HotStreak(w: seq<Day>, S: map<Day, DaySummary>, lim: Limits): nat {
    if w == [] then 0
    else if At(S, w[|w| - 1]).maxTemp >= lim.heatTemp then HotStreak(w[..|w| - 1], S, lim) + 1
    else 0
  }

  /** The drought warning is already raised. */
  predicate DroughtRecorded(alerts: seq<Alert>) {
    Select(alerts, Drought) != []
  }

  /** The dry-day counter reached the drought-days limit on some day of `w`. */
  ghost predicate DryReached(w: seq<Day>, S: map<Day, DaySummary>, lim: Limits) {
    exists k :: 0 < k <= |w| && DryStreak(w[..k], S, lim) as real >= lim.droughtDays
  }

  /** Some alert of `hs` is a heatwave detail ending on `d`. */
  predicate EndsOn(hs: seq<Alert>, d: Day) {
    hs != [] && ((hs[|hs| - 1].HeatwaveRisk? && hs[|hs| - 1].endDay == d) || EndsOn(hs[..|hs| - 1], d))
  }

  /** Some heatwave detail already names `d` as its ending day. */
  predicate HeatwaveEndRecorded(alerts: seq<Alert>, d: Day) {
    EndsOn(Select(alerts, Heatwave), d)
  }

  /** The drought alert of the last day of `w`, given the alerts `prev` of the earlier days. */
  function DroughtCheck(w: seq<Day>, prev: seq<Alert>, S: map<Day, DaySummary>, lim: Limits): seq<Alert>
    requires w != []
  {
    var n := DryStreak(w, S, lim);
    if n as real >= lim.droughtDays && !DroughtRecorded(prev) then
      [DroughtRisk(n, lim.droughtMm, w[|w| - 1] - (n as int - 1))]
    else []
  }

  /** The heatwave alert of the last day of `w`, given the alerts `prev` of the earlier days. */
  function HeatCheck(w: seq<Day>, prev: seq<Alert>, S: map<Day, DaySummary>, lim: Limits): seq<Alert>
    requires w != []
  {
    var n := HotStreak(w, S, lim);
    if n as real >= lim.heatDays && !HeatwaveEndRecorded(prev, w[|w| - 1]) then
      [HeatwaveRisk(n, lim.heatTemp, w[|w| - 1])]
    else []
  }

  /** All alerts of the last day of `w`: frost, flood, wind, humidity, drought, heatwave. */
  function DayAlerts(w: seq<Day>, prev: seq<Alert>, S: map<Day, DaySummary>, lim: Limits): seq<Alert>
    requires w != []
  {
    var d := w[|w| - 1];
    DailyChecks(d, At(S, d), lim) + DroughtCheck(w, prev, S, lim) + HeatCheck(w, prev, S, lim)
  }

  /** The overall alert list after evaluating the days `w`: day after day, each day's alerts. */
  function OverallAlerts(w: seq<Day>, S: map<Day, DaySummary>, lim: Limits): seq<Alert> {
    if w == [] then []
    else
      var prev := OverallAlerts(w[..|w| - 1], S, lim);
      prev + DayAlerts(w, prev, S, lim)
  }

  // ---------------------------------------------------------------------------
  // Which days are evaluated.

  /** At most this many days are evaluated. */
  const Horizon: nat := 5

  predicate StrictlyIncreasing(s: seq<int>) {
    forall i, j :: 0 <= i < j < |s| ==> s[i] < s[j]
  }

  /** The days of `days` that are not before `today`, in order. */
  function Upcoming(days: seq<Day>, today: Day): seq<Day> {
    if days == [] then []
    else Upcoming(days[..|days| - 1], today) + if days[|days| - 1] >= today then [days[|days| - 1]] else []
  }

  /** The evaluated days: the first `Horizon` upcoming ones. */
  function Window(days: seq<Day>, today: Day): seq<Day> {
    var u := Upcoming(days, today);
    if |u| <= Horizon then u else u[..Horizon]
  }

  /** The keys of a summary map in ascending order. */
  function Ascending(keys: set<Day>): (s: seq<Day>)
    ensures StrictlyIncreasing(s)
    ensures forall d :: d in s <==> d in keys
    decreases |keys|
  {
    if keys == {} then []
    else
      LeastExists(keys);
      var m :| m in keys && forall x :: x in keys ==> m <= x;
      var rest := Ascending(keys - {m});
      ConsIncreasing(m, rest);
      [m] + rest
  }

  // ---------------------------------------------------------------------------
  // Lemmas.

  /** A non-empty set has an element. */
  lemma Inhabited(keys: set<Day>)
    requires keys != {}
    ensures exists d :: d in keys
  {
    if forall d :: d !in keys {
      assert false;
    }
  }

  lemma LeastExists(keys: set<Day>)
    requires keys != {}
    ensures exists m :: m in keys && forall x :: x in keys ==> m <= x
  {
    var m := Least(keys);
  }

  lemma {:induction false} Least(keys: set<Day>) returns (m: Day)
    requires keys != {}
    ensures m in keys
    ensures forall x :: x in keys ==> m <= x
    decreases |keys|
  {
    Inhabited(keys);
    var y :| y in keys;
    if keys == {y} {
      m := y;
    } else {
      var rest := keys - {y};
      var r := Least(rest);
      assert forall x :: x in keys ==> x == y || x in rest;
      m := if y < r then y else r;
    }
  }

  /** The head of a strictly increasing sequence is its least element, and the
      tail holds exactly the other elements. */
  lemma SortedSplit(s: seq<Day>)
    requires StrictlyIncreasing(s) && s != []
    ensures forall d :: d in s ==> s[0] <= d
    ensures forall d :: d in s[1..] <==> d in s && d != s[0]
  {
    forall d | d in s ensures s[0] <= d {
      var j :| 0 <= j < |s| && s[j] == d;
    }
    forall d ensures d in s[1..] <==> d in s && d != s[0] {
      if d in s && d != s[0] {
        var j :| 0 <= j < |s| && s[j] == d;
        assert s[1..][j - 1] == d;
      }
    }
  }

  /** Putting a smaller day in front keeps a sequence strictly increasing. */
  lemma ConsIncreasing(m: Day, rest: seq<Day>)
    requires StrictlyIncreasing(rest)
    requires forall d :: d in rest ==> m < d
    ensures StrictlyIncreasing([m] + rest)
    ensures forall d :: d in [m] + rest <==> d == m || d in rest
  {
    var s := [m] + rest;
    forall i, j | 0 <= i < j < |s| ensures s[i] < s[j] {
      assert s[j] == rest[j - 1] && rest[j - 1] in rest;
      if i > 0 {
        assert s[i] == rest[i - 1];
      }
    }
  }

  /** Two strictly increasing sequences with the same elements are equal. */
  lemma {:induction false} SortedUnique(s: seq<Day>, t: seq<Day>)
    requires StrictlyIncreasing(s) && StrictlyIncreasing(t)
    requires forall d :: d in s <==> d in t
    ensures s == t
    decreases |s|
  {
    assert s != [] ==> s[0] in s;
    assert t != [] ==> t[0] in t;
    if s != [] {
      assert s[0] in t;
      SortedSplit(s);
      SortedSplit(t);
      assert s[0] == t[0] by {
        assert t[0] in s;
      }
      SortedUnique(s[1..], t[1..]);
      assert s == [s[0]] + s[1..] && t == [t[0]] + t[1..];
    }
  }

  /** A strictly increasing sequence is determined by its elements. */
  lemma AscendingUnique(s: seq<Day>, keys: set<Day>)
    requires StrictlyIncreasing(s)
    requires forall d :: d in s <==> d in keys
    ensures s == Ascending(keys)
  {
    SortedUnique(s, Ascending(keys));
  }

  lemma {:induction false} SelectAppend(a: seq<Alert>, b: seq<Alert>, c: Category)
    ensures Select(a + b, c) == Select(a, c) + Select(b, c)
    decreases |b|
  {
    if b != [] {
      var b' := b[..|b| - 1];
      assert (a + b)[..|a + b| - 1] == a + b';
      SelectAppend(a, b', c);
    } else {
      assert a + b == a;
    }
  }

  /** `EndsOn` holds exactly when some heatwave detail of the list ends on the day. */
  lemma {:induction false} EndsOnMeaning(hs: seq<Alert>, d: Day)
    ensures EndsOn(hs, d) <==> exists a :: a in hs && a.HeatwaveRisk? && a.endDay == d
  {
    if hs != [] {
      var p := hs[..|hs| - 1];
      EndsOnMeaning(p, d);
      assert hs == p + [hs[|hs| - 1]];
    }
  }

  /** An alert is among a category's details exactly when it is in the list and of that category. */
  lemma {:induction false} SelectMeaning(a: seq<Alert>, c: Category, x: Alert)
    ensures x in Select(a, c) <==> x in a && x.Kind() == c
  {
    if a != [] {
      var p := a[..|a| - 1];
      SelectMeaning(p, c, x);
      assert a == p + [a[|a| - 1]];
    }
  }

  /** In a report built from an alert list, a category is triggered exactly when
      some alert of that category was raised, and an empty list gives the empty report. */
  lemma ReportOfMeaning(alerts: seq<Alert>, c: Category)
    ensures ReportOf(alerts).Get(c).warning <==> exists a :: a in alerts && a.Kind() == c
    ensures ReportOf(alerts).Get(c).details == Select(alerts, c)
    ensures ReportOf([]) == EmptyReport
  {
    if exists a :: a in alerts && a.Kind() == c {
      var a :| a in alerts && a.Kind() == c;
      SelectMeaning(alerts, c, a);
    }
    if Select(alerts, c) != [] {
      var x := Select(alerts, c)[0];
      SelectMeaning(alerts, c, x);
    }
  }

  /** Recording one more alert of the day, before the day's alerts join the overall list. */
  lemma RaiseStep(prev: seq<Alert>, pending: seq<Alert>, a: Alert)
    ensures ReportOf(prev + pending + [a]).(overallAlerts := prev)
         == Raise(ReportOf(prev + pending).(overallAlerts := prev), a)
  {
    var xs := prev + pending;
    CategoryOfSnoc(xs, a, Drought);
    CategoryOfSnoc(xs, a, FloodHeavyRain);
    CategoryOfSnoc(xs, a, Heatwave);
    CategoryOfSnoc(xs, a, Frost);
    CategoryOfSnoc(xs, a, HighWind);
    CategoryOfSnoc(xs, a, ProlongedHighHumidity);
  }

  /** One more alert changes only the entry of its own category. */
  lemma CategoryOfSnoc(xs: seq<Alert>, a: Alert, c: Category)
    ensures CategoryOf(xs + [a], c) ==
      if a.Kind() == c then CategoryReport(true, Select(xs, c) + [a]) else CategoryOf(xs, c)
  {
    assert (xs + [a])[..|xs|] == xs;
  }


  lemma {:induction false} SelectAll(xs: seq<Alert>, c: Category)
    requires forall x :: x in xs ==> x.Kind() == c
    ensures Select(xs, c) == xs
  {
    if xs != [] {
      SelectAll(xs[..|xs| - 1], c);
      assert xs == xs[..|xs| - 1] + [xs[|xs| - 1]];
    }
  }

  lemma {:induction false} SelectNone(xs: seq<Alert>, c: Category)
    requires forall x :: x in xs ==> x.Kind() != c
    ensures Select(xs, c) == []
  {
    if xs != [] {
      SelectNone(xs[..|xs| - 1], c);
    }
  }

  /** A day's own checks raise only per-day alerts, each carrying that day. */
  lemma DailyChecksDay(d: Day, s: DaySummary, lim: Limits)
    ensures forall a :: a in DailyChecks(d, s, lim) ==> a.Daily() && a.day == d
  {
  }

  /** What a day's own checks raise: each per-day alert exactly when its limit is reached. */
  lemma DailyChecksMeaning(d: Day, s: DaySummary, lim: Limits)
    ensures FrostRisk(d, s.minTemp, lim.frost) in DailyChecks(d, s, lim) <==> s.minTemp <= lim.frost
    ensures FloodRisk(d, s.totalRain, lim.floodPerDay) in DailyChecks(d, s, lim) <==> s.totalRain >= lim.floodPerDay
    ensures HeavyRainBurst(d, MaxBurst(s), lim.burstPer3h) in DailyChecks(d, s, lim)
        <==> s.totalRain < lim.floodPerDay && MaxBurst(s) >= lim.burstPer3h
    ensures HighWindRisk(d, s.maxWindSpeed, lim.wind) in DailyChecks(d, s, lim) <==> s.maxWindSpeed >= lim.wind
    ensures HumidityRisk(d, HumidHours(s, lim), lim.humidity, lim.humidityHours) in DailyChecks(d, s, lim)
        <==> HumidHours(s, lim) as real >= lim.humidityHours && Present(s.humidityReadings) != []
  {
    InDailyChecks(d, s, lim, FrostRisk(d, s.minTemp, lim.frost));
    InDailyChecks(d, s, lim, FloodRisk(d, s.totalRain, lim.floodPerDay));
    InDailyChecks(d, s, lim, HeavyRainBurst(d, MaxBurst(s), lim.burstPer3h));
    InDailyChecks(d, s, lim, HighWindRisk(d, s.maxWindSpeed, lim.wind));
    InDailyChecks(d, s, lim, HumidityRisk(d, HumidHours(s, lim), lim.humidity, lim.humidityHours));
  }

  /** An alert of the day's own checks comes from one of the four checks. */
  lemma InDailyChecks(d: Day, s: DaySummary, lim: Limits, x: Alert)
    ensures x in DailyChecks(d, s, lim) <==>
      x in FrostCheck(d, s, lim) || x in FloodCheck(d, s, lim) || x in WindCheck(d, s, lim) || x in HumidityCheck(d, s, lim)
  {
  }

  /** A day's own checks raise at most one alert of each kind. */
  lemma DailyChecksOnly(d: Day, s: DaySummary, lim: Limits)
    ensures forall a :: a in DailyChecks(d, s, lim) ==>
      (a.FrostRisk? ==> a == FrostRisk(d, s.minTemp, lim.frost)) &&
      (a.HighWindRisk? ==> a == HighWindRisk(d, s.maxWindSpeed, lim.wind)) &&
      (a.Kind() == FloodHeavyRain ==> FloodCheck(d, s, lim) == [a]) &&
      (a.HumidityRisk? ==> a == HumidityRisk(d, HumidHours(s, lim), lim.humidity, lim.humidityHours))
  {
  }

  /** A day's own checks raise neither drought nor heatwave alerts. */
  lemma DailyChecksNeither(d: Day, s: DaySummary, lim: Limits)
    ensures Select(DailyChecks(d, s, lim), Drought) == []
    ensures Select(DailyChecks(d, s, lim), Heatwave) == []
  {
    DailyChecksDay(d, s, lim);
    SelectNone(DailyChecks(d, s, lim), Drought);
    SelectNone(DailyChecks(d, s, lim), Heatwave);
  }

  /** The drought check raises only drought alerts. */
  lemma DroughtCheckKind(w: seq<Day>, prev: seq<Alert>, S: map<Day, DaySummary>, lim: Limits)
    requires w != []
    ensures Select(DroughtCheck(w, prev, S, lim), Drought) == DroughtCheck(w, prev, S, lim)
    ensures Select(DroughtCheck(w, prev, S, lim), Heatwave) == []
  {
    var dr := DroughtCheck(w, prev, S, lim);
    SelectAll(dr, Drought);
    SelectNone(dr, Heatwave);
  }

  /** The heatwave check raises only heatwave alerts. */
  lemma HeatCheckKind(w: seq<Day>, prev: seq<Alert>, S: map<Day, DaySummary>, lim: Limits)
    requires w != []
    ensures Select(HeatCheck(w, prev, S, lim), Heatwave) == HeatCheck(w, prev, S, lim)
    ensures Select(HeatCheck(w, prev, S, lim), Drought) == []
  {
    var hc := HeatCheck(w, prev, S, lim);
    SelectAll(hc, Heatwave);
    SelectNone(hc, Drought);
  }

  /** Selecting a category from three parts: all of them from the middle part, none from the others. */
  lemma SelectThree(a: seq<Alert>, b: seq<Alert>, c: seq<Alert>, cat: Category)
    requires Select(a, cat) == [] && Select(b, cat) == b && Select(c, cat) == []
    ensures Select(a + b + c, cat) == b
  {
    SelectAppend(a, b, cat);
    SelectAppend(a + b, c, cat);
    assert [] + b + [] == b;
  }

  /** Selecting a category from three parts: all of them from the last part, none from the others. */
  lemma SelectLastOfThree(a: seq<Alert>, b: seq<Alert>, c: seq<Alert>, cat: Category)
    requires Select(a, cat) == [] && Select(b, cat) == [] && Select(c, cat) == c
    ensures Select(a + b + c, cat) == c
  {
    SelectAppend(a, b, cat);
    SelectAppend(a + b, c, cat);
    assert [] + [] + c == c;
  }

  /** The drought details a day adds are exactly its drought check. */
  lemma DayDrought(w: seq<Day>, prev: seq<Alert>, S: map<Day, DaySummary>, lim: Limits)
    requires w != []
    ensures Select(DayAlerts(w, prev, S, lim), Drought) == DroughtCheck(w, prev, S, lim)
  {
    var d := w[|w| - 1];
    var dc := DailyChecks(d, At(S, d), lim);
    var dr := DroughtCheck(w, prev, S, lim);
    var hc := HeatCheck(w, prev, S, lim);
    DailyChecksNeither(d, At(S, d), lim);
    DroughtCheckKind(w, prev, S, lim);
    HeatCheckKind(w, prev, S, lim);
    SelectThree(dc, dr, hc, Drought);
  }



  /** The heatwave details a day adds are exactly its heatwave check. */
  lemma DayHeat(w: seq<Day>, prev: seq<Alert>, S: map<Day, DaySummary>, lim: Limits)
    requires w != []
    ensures Select(DayAlerts(w, prev, S, lim), Heatwave) == HeatCheck(w, prev, S, lim)
  {
    var d := w[|w| - 1];
    var dc := DailyChecks(d, At(S, d), lim);
    var dr := DroughtCheck(w, prev, S, lim);
    var hc := HeatCheck(w, prev, S, lim);
    DailyChecksNeither(d, At(S, d), lim);
    DroughtCheckKind(w, prev, S, lim);
    HeatCheckKind(w, prev, S, lim);
    SelectLastOfThree(dc, dr, hc, Heatwave);
  }



  /** A per-day alert is among a day's alerts exactly when it is that day's and its own checks raise it. */
  lemma DayDaily(w: seq<Day>, prev: seq<Alert>, S: map<Day, DaySummary>, lim: Limits, a: Alert)
    requires w != [] && a.Daily()
    ensures a in DayAlerts(w, prev, S, lim)
        <==> a.day == w[|w| - 1] && a in DailyChecks(w[|w| - 1], At(S, w[|w| - 1]), lim)
  {
    var d := w[|w| - 1];
    DailyChecksDay(d, At(S, d), lim);
  }

  /** Evaluating one more day extends the drought details by that day's drought check. */
  lemma OverallDroughtDetails(w: seq<Day>, S: map<Day, DaySummary>, lim: Limits)
    requires w != []
    ensures var prev := OverallAlerts(w[..|w| - 1], S, lim);
      Select(OverallAlerts(w, S, lim), Drought) == Select(prev, Drought) + DroughtCheck(w, prev, S, lim)
  {
    var prev := OverallAlerts(w[..|w| - 1], S, lim);
    DayDrought(w, prev, S, lim);
    SelectAppend(prev, DayAlerts(w, prev, S, lim), Drought);
  }

  /** Evaluating one more day extends the heatwave details by that day's heatwave check. */
  lemma OverallHeatDetails(w: seq<Day>, S: map<Day, DaySummary>, lim: Limits)
    requires w != []
    ensures var prev := OverallAlerts(w[..|w| - 1], S, lim);
      Select(OverallAlerts(w, S, lim), Heatwave) == Select(prev, Heatwave) + HeatCheck(w, prev, S, lim)
  {
    var prev := OverallAlerts(w[..|w| - 1], S, lim);
    DayHeat(w, prev, S, lim);
    SelectAppend(prev, DayAlerts(w, prev, S, lim), Heatwave);
  }

  /** An element of a non-empty sequence is in its front part or is its last element. */
  lemma InSnoc(w: seq<Day>, x: Day)
    requires w != []
    ensures x in w <==> x in w[..|w| - 1] || x == w[|w| - 1]
  {
    assert w == w[..|w| - 1] + [w[|w| - 1]];
  }

  /** A per-day alert is in the overall list exactly when its day was evaluated
      and that day's own checks raise it. */
  lemma {:induction false} DailyAlertIn(w: seq<Day>, S: map<Day, DaySummary>, lim: Limits, a: Alert)
    requires a.Daily()
    ensures a in OverallAlerts(w, S, lim) <==> a.day in w && a in DailyChecks(a.day, At(S, a.day), lim)
  {
    if w != [] {
      var p := w[..|w| - 1];
      var prev := OverallAlerts(p, S, lim);
      DailyAlertIn(p, S, lim, a);
      DayDaily(w, prev, S, lim, a);
      InSnoc(w, a.day);
    }
  }

  /** Every heatwave detail is a heatwave alert ending on an evaluated day. */
  lemma {:induction false} HeatEndsIn(w: seq<Day>, S: map<Day, DaySummary>, lim: Limits, a: Alert)
    requires a in Select(OverallAlerts(w, S, lim), Heatwave)
    ensures a.HeatwaveRisk? && a.endDay in w
  {
    if w != [] {
      var p := w[..|w| - 1];
      var prev := OverallAlerts(p, S, lim);
      OverallHeatDetails(w, S, lim);
      InSnoc(w, w[|w| - 1]);
      if a in Select(prev, Heatwave) {
        HeatEndsIn(p, S, lim, a);
        InSnoc(w, a.endDay);
      } else {
        assert a in HeatCheck(w, prev, S, lim);
      }
    }
  }

  /** Frost fires on an evaluated day exactly when its minimum is at or below the frost limit. */
  lemma FrostIff(w: seq<Day>, S: map<Day, DaySummary>, lim: Limits, d: Day)
    ensures FrostRisk(d, At(S, d).minTemp, lim.frost) in OverallAlerts(w, S, lim)
        <==> d in w && At(S, d).minTemp <= lim.frost
    ensures forall a :: a in OverallAlerts(w, S, lim) && a.FrostRisk? && a.day == d ==>
        a == FrostRisk(d, At(S, d).minTemp, lim.frost)
  {
    DailyAlertIn(w, S, lim, FrostRisk(d, At(S, d).minTemp, lim.frost));
    DailyChecksMeaning(d, At(S, d), lim);
    DailyChecksOnly(d, At(S, d), lim);
    forall a | a in OverallAlerts(w, S, lim) && a.FrostRisk? && a.day == d
      ensures a == FrostRisk(d, At(S, d).minTemp, lim.frost)
    {
      DailyAlertIn(w, S, lim, a);
    }
  }

  /** Wind fires on an evaluated day exactly when its peak wind reaches the wind limit. */
  lemma WindIff(w: seq<Day>, S: map<Day, DaySummary>, lim: Limits, d: Day)
    ensures HighWindRisk(d, At(S, d).maxWindSpeed, lim.wind) in OverallAlerts(w, S, lim)
        <==> d in w && At(S, d).maxWindSpeed >= lim.wind
    ensures forall a :: a in OverallAlerts(w, S, lim) && a.HighWindRisk? && a.day == d ==>
        a == HighWindRisk(d, At(S, d).maxWindSpeed, lim.wind)
  {
    DailyAlertIn(w, S, lim, HighWindRisk(d, At(S, d).maxWindSpeed, lim.wind));
    DailyChecksMeaning(d, At(S, d), lim);
    DailyChecksOnly(d, At(S, d), lim);
    forall a | a in OverallAlerts(w, S, lim) && a.HighWindRisk? && a.day == d
      ensures a == HighWindRisk(d, At(S, d).maxWindSpeed, lim.wind)
    {
      DailyAlertIn(w, S, lim, a);
    }
  }

  /** Flood evidence for an evaluated day: the daily-total alert when the total
      reaches the daily limit, otherwise the burst alert when the wettest
      interval reaches the interval limit; never both. */
  lemma FloodIff(w: seq<Day>, S: map<Day, DaySummary>, lim: Limits, d: Day)
    ensures FloodRisk(d, At(S, d).totalRain, lim.floodPerDay) in OverallAlerts(w, S, lim)
        <==> d in w && At(S, d).totalRain >= lim.floodPerDay
    ensures HeavyRainBurst(d, MaxBurst(At(S, d)), lim.burstPer3h) in OverallAlerts(w, S, lim)
        <==> d in w && At(S, d).totalRain < lim.floodPerDay && MaxBurst(At(S, d)) >= lim.burstPer3h
    ensures forall a, b ::
      (a in OverallAlerts(w, S, lim) && b in OverallAlerts(w, S, lim) &&
       a.Kind() == FloodHeavyRain && b.Kind() == FloodHeavyRain && a.day == d && b.day == d) ==> a == b
  {
    DailyAlertIn(w, S, lim, FloodRisk(d, At(S, d).totalRain, lim.floodPerDay));
    DailyAlertIn(w, S, lim, HeavyRainBurst(d, MaxBurst(At(S, d)), lim.burstPer3h));
    DailyChecksMeaning(d, At(S, d), lim);
    DailyChecksOnly(d, At(S, d), lim);
    forall a, b |
      (a in OverallAlerts(w, S, lim) && b in OverallAlerts(w, S, lim) &&
       a.Kind() == FloodHeavyRain && b.Kind() == FloodHeavyRain && a.day == d && b.day == d)
      ensures a == b
    {
      DailyAlertIn(w, S, lim, a);
      DailyAlertIn(w, S, lim, b);
    }
  }

  /** Humidity fires on an evaluated day exactly when three hours per present
      reading at or above the humidity limit reach the duration limit and the
      day has at least one present reading. */
  lemma HumidityIff(w: seq<Day>, S: map<Day, DaySummary>, lim: Limits, d: Day)
    ensures HumidityRisk(d, HumidHours(At(S, d), lim), lim.humidity, lim.humidityHours) in OverallAlerts(w, S, lim)
        <==> d in w && (3 * CountAtLeast(Present(At(S, d).humidityReadings), lim.humidity)) as real >= lim.humidityHours
                    && exists h :: h in At(S, d).humidityReadings && h.Some?
  {
    var s := At(S, d);
    DailyAlertIn(w, S, lim, HumidityRisk(d, HumidHours(s, lim), lim.humidity, lim.humidityHours));
    DailyChecksMeaning(d, s, lim);
    PresentNonEmpty(s.humidityReadings);
  }

  /** Some reading is present exactly when the present readings are not empty. */
  lemma PresentNonEmpty(hs: seq<Option<real>>)
    ensures Present(hs) != [] <==> exists h :: h in hs && h.Some?
  {
    if exists h :: h in hs && h.Some? {
      var h :| h in hs && h.Some?;
      assert h.value in Present(hs);
    }
    if Present(hs) != [] {
      assert Some(Present(hs)[0]) in hs;
    }
  }

  /** The drought details never hold more than one alert, and there is one
      exactly when the dry-day counter reached the drought-days limit on some
      evaluated day. */
  lemma {:induction false} DroughtOnce(w: seq<Day>, S: map<Day, DaySummary>, lim: Limits)
    ensures |Select(OverallAlerts(w, S, lim), Drought)| <= 1
    ensures DroughtRecorded(OverallAlerts(w, S, lim)) <==> DryReached(w, S, lim)
  {
    if w != [] {
      DroughtOnce(w[..|w| - 1], S, lim);
      OverallDroughtDetails(w, S, lim);
      DryReachedSnoc(w, S, lim);
    }
  }

  /** The dry-day counter reached the drought-days limit on some day of `w`
      exactly when it did on an earlier day or does on the last one. */
  lemma DryReachedSnoc(w: seq<Day>, S: map<Day, DaySummary>, lim: Limits)
    requires w != []
    ensures DryReached(w, S, lim)
        <==> DryReached(w[..|w| - 1], S, lim) || DryStreak(w, S, lim) as real >= lim.droughtDays
  {
    var p := w[..|w| - 1];
    var t := lim.droughtDays;
    if DryReached(w, S, lim) {
      var k :| 0 < k <= |w| && DryStreak(w[..k], S, lim) as real >= t;
      if k < |w| {
        assert p[..k] == w[..k];
        assert DryStreak(p[..k], S, lim) as real >= t;
      } else {
        assert w[..k] == w;
      }
    }
    if DryReached(p, S, lim) {
      var k :| 0 < k <= |p| && DryStreak(p[..k], S, lim) as real >= t;
      assert p[..k] == w[..k];
      assert DryStreak(w[..k], S, lim) as real >= t;
    }
    if DryStreak(w, S, lim) as real >= t {
      assert w[..|w|] == w;
    }
  }

  /** No heatwave detail of days all before `d` ends on `d`. */
  lemma NoEarlierEnd(p: seq<Day>, d: Day, S: map<Day, DaySummary>, lim: Limits)
    requires forall x :: x in p ==> x < d
    ensures !EndsOn(Select(OverallAlerts(p, S, lim), Heatwave), d)
  {
    var hs := Select(OverallAlerts(p, S, lim), Heatwave);
    EndsOnMeaning(hs, d);
    forall a | a in hs ensures a.HeatwaveRisk? && a.endDay != d {
      HeatEndsIn(p, S, lim, a);
    }
  }

  /** A heatwave detail ends on `d` in a concatenation exactly when one does in either part. */
  lemma {:induction false} EndsOnAppend(a: seq<Alert>, b: seq<Alert>, d: Day)
    ensures EndsOn(a + b, d) <==> EndsOn(a, d) || EndsOn(b, d)
    decreases |b|
  {
    if b != [] {
      var b' := b[..|b| - 1];
      assert (a + b)[..|a + b| - 1] == a + b';
      EndsOnAppend(a, b', d);
    } else {
      assert a + b == a;
    }
  }

  /** No two alerts of `hs` are heatwave alerts with the same ending day, and
      every alert of `hs` is a heatwave alert. */
  predicate DistinctEnds(hs: seq<Alert>) {
    (forall a :: a in hs ==> a.HeatwaveRisk?) &&
    forall i, j :: 0 <= i < j < |hs| ==> hs[i].endDay != hs[j].endDay
  }

  /** Appending a heatwave alert whose ending day is new keeps the ending days distinct. */
  lemma DistinctEndsSnoc(hs: seq<Alert>, x: Alert)
    requires DistinctEnds(hs)
    requires x.HeatwaveRisk? && !EndsOn(hs, x.endDay)
    ensures DistinctEnds(hs + [x])
  {
    EndsOnMeaning(hs, x.endDay);
    var hs' := hs + [x];
    forall i, j | 0 <= i < j < |hs'| ensures hs'[i].endDay != hs'[j].endDay {
      assert hs'[i] == hs[i];
      if j == |hs| {
        assert hs[i] in hs;
      } else {
        assert hs'[j] == hs[j];
      }
    }
  }

  /** No two heatwave details name the same ending day. */
  lemma {:induction false} HeatwaveEndsDistinct(w: seq<Day>, S: map<Day, DaySummary>, lim: Limits)
    ensures DistinctEnds(Select(OverallAlerts(w, S, lim), Heatwave))
  {
    if w != [] {
      var p := w[..|w| - 1];
      var prev := OverallAlerts(p, S, lim);
      var old_hs := Select(prev, Heatwave);
      var hc := HeatCheck(w, prev, S, lim);
      HeatwaveEndsDistinct(p, S, lim);
      OverallHeatDetails(w, S, lim);
      if hc != [] {
        DistinctEndsSnoc(old_hs, hc[0]);
        assert hc == [hc[0]];
      } else {
        assert old_hs + hc == old_hs;
      }
    }
  }

  /** With days evaluated in strictly increasing order, the last day's heatwave
      check is never suppressed: no earlier detail ends on it. */
  lemma HeatwaveOnLast(w: seq<Day>, S: map<Day, DaySummary>, lim: Limits)
    requires StrictlyIncreasing(w) && w != []
    ensures HeatwaveEndRecorded(OverallAlerts(w, S, lim), w[|w| - 1])
        <==> HotStreak(w, S, lim) as real >= lim.heatDays
  {
    var p := w[..|w| - 1];
    var d := w[|w| - 1];
    var prev := OverallAlerts(p, S, lim);
    OverallHeatDetails(w, S, lim);
    EndsOnAppend(Select(prev, Heatwave), HeatCheck(w, prev, S, lim), d);
    forall x | x in p ensures x < d {
      var i :| 0 <= i < |p| && p[i] == x;
      assert w[i] == x;
    }
    NoEarlierEnd(p, d, S, lim);
  }

  /** Evaluating a later day adds no heatwave detail ending on an earlier one. */
  lemma HeatwaveOnEarlier(w: seq<Day>, S: map<Day, DaySummary>, lim: Limits, k: nat)
    requires StrictlyIncreasing(w) && k < |w| - 1
    ensures HeatwaveEndRecorded(OverallAlerts(w, S, lim), w[k])
        <==> HeatwaveEndRecorded(OverallAlerts(w[..|w| - 1], S, lim), w[k])
  {
    var prev := OverallAlerts(w[..|w| - 1], S, lim);
    OverallHeatDetails(w, S, lim);
    EndsOnAppend(Select(prev, Heatwave), HeatCheck(w, prev, S, lim), w[k]);
    assert w[k] < w[|w| - 1];
  }

  /** With days evaluated in strictly increasing order, the de-duplication never
      suppresses an alert: a heatwave detail ends on an evaluated day exactly when
      the hot-day counter reached the heatwave-days limit on that day. */
  lemma {:induction false} HeatwaveOnStreak(w: seq<Day>, S: map<Day, DaySummary>, lim: Limits, k: nat)
    requires StrictlyIncreasing(w)
    requires k < |w|
    ensures HeatwaveEndRecorded(OverallAlerts(w, S, lim), w[k])
        <==> HotStreak(w[..k + 1], S, lim) as real >= lim.heatDays
  {
    if k == |w| - 1 {
      HeatwaveOnLast(w, S, lim);
      assert w[..k + 1] == w;
    } else {
      var p := w[..|w| - 1];
      HeatwaveOnEarlier(w, S, lim, k);
      assert StrictlyIncreasing(p);
      HeatwaveOnStreak(p, S, lim, k);
      assert p[..k + 1] == w[..k + 1];
    }
  }

  /** Only upcoming days of `days` are evaluated, in order, at most `Horizon` of
      them; an upcoming day is left out only when the window is full and it comes
      after every evaluated day. */
  lemma WindowFacts(days: seq<Day>, today: Day)
    requires StrictlyIncreasing(days)
    ensures StrictlyIncreasing(Window(days, today))
    ensures |Window(days, today)| <= Horizon
    ensures forall d :: d in Window(days, today) ==> d in days && d >= today
    ensures forall d :: d in days && d >= today && d !in Window(days, today) ==>
      |Window(days, today)| == Horizon && forall e :: e in Window(days, today) ==> e < d
  {
    UpcomingFacts(days, today);
    var u := Upcoming(days, today);
    forall d | d in days && d >= today && d !in Window(days, today)
      ensures |Window(days, today)| == Horizon && forall e :: e in Window(days, today) ==> e < d
    {
      var j :| 0 <= j < |u| && u[j] == d;
      forall e | e in Window(days, today) ensures e < d {
        var i :| 0 <= i < Horizon && u[i] == e;
      }
    }
  }

  /** The upcoming days of a strictly increasing sequence are strictly increasing,
      and they are exactly its days not before `today`. */
  lemma {:induction false} UpcomingFacts(days: seq<Day>, today: Day)
    requires StrictlyIncreasing(days)
    ensures StrictlyIncreasing(Upcoming(days, today))
    ensures forall d :: d in Upcoming(days, today) <==> d in days && d >= today
  {
    if days != [] {
      var p := days[..|days| - 1];
      var last := days[|days| - 1];
      var u := Upcoming(p, today);
      assert StrictlyIncreasing(p);
      UpcomingFacts(p, today);
      forall d ensures d in days <==> d in p || d == last {
        InSnoc(days, d);
      }
      if last >= today {
        forall d | d in u ensures d < last {
          var i :| 0 <= i < |p| && p[i] == d;
          assert days[i] == d;
        }
        SnocIncreasing(u, last);
      } else {
        assert Upcoming(days, today) == u + [];
      }
    }
  }

  /** Appending a value above every element keeps a sequence strictly increasing. */
  lemma SnocIncreasing(u: seq<Day>, x: Day)
    requires StrictlyIncreasing(u)
    requires forall d :: d in u ==> d < x
    ensures StrictlyIncreasing(u + [x])
  {
    var v := u + [x];
    forall i, j | 0 <= i < j < |v| ensures v[i] < v[j] {
      assert v[i] == u[i];
      if j == |u| {
        assert u[i] in u;
      }
    }
  }

  lemma {:induction false} UpcomingAppend(a: seq<Day>, b: seq<Day>, today: Day)
    ensures Upcoming(a + b, today) == Upcoming(a, today) + Upcoming(b, today)
    decreases |b|
  {
    if b != [] {
      var b' := b[..|b| - 1];
      assert (a + b)[..|a + b| - 1] == a + b';
      UpcomingAppend(a, b', today);
    } else {
      assert a + b == a;
    }
  }

  /** A forecast whose days all lie before `today` yields the empty report. */
  lemma PastOnlyIsQuiet(days: seq<Day>, today: Day, S: map<Day, DaySummary>, lim: Limits)
    requires forall i :: 0 <= i < |days| ==> days[i] < today
    ensures ReportOf(OverallAlerts(Window(days, today), S, lim)) == EmptyReport
  {
    PastUpcomingEmpty(days, today);
  }

  lemma {:induction false} PastUpcomingEmpty(days: seq<Day>, today: Day)
    requires forall i :: 0 <= i < |days| ==> days[i] < today
    ensures Upcoming(days, today) == []
  {
    if days != [] {
      PastUpcomingEmpty(days[..|days| - 1], today);
    }
  }
}
