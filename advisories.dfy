/** The advisory composer: turns a risk report into an ordered list of advice
    lines for the grower, given the crop's growth stage. */
module Advisories {
  import opened Wrappers
  import opened RiskRules

  /** One advice line. Only the lines whose presence and order matter are told
      apart; the wording of the advice inside each category block is not modelled. */
  datatype Line =
    | CouldNotGenerate          // the report is missing
    | NoSignificantRisks        // no category is triggered
    | AdvisoriesHeader          // opens the advice
    | CategoryHeader(category: Category)
    | WaterConservation         // first drought advice line
    | CriticalStage(stage: string)
    | IrrigationSchedule
    | DetailsHeader             // opens the list of triggering alerts
    | Detail(alert: Alert)
    | MoreDetails               // the alerts were cut short
    | Separator
    | Disclaimer

  /** The categories in the order their blocks are written. */
  const CategoryOrder: seq<Category> := [Drought, FloodHeavyRain, Heatwave, Frost, HighWind, ProlongedHighHumidity]

  /** At most this many triggering alerts are listed. */
  const MaxDetails: nat := 7

  /** Growth stages at which the drought advice warns that yield is most sensitive. */
  predicate CriticalStageName(stage: Option<string>) {
    stage == Some("Flowering") || stage == Some("Fruiting/Maturity")
  }

  /** Some category other than the overall alert list is triggered. */
  predicate AnyWarning(r: RiskReport) {
    r.drought.warning || r.floodHeavyRain.warning || r.heatwave.warning ||
    r.frost.warning || r.highWind.warning || r.prolongedHighHumidity.warning
  }

  // ---------------------------------------------------------------------------
  // The advice, stated as a function of the report.

  /** The stage-dependent line of the drought block. */
  function StageLine(stage: Option<string>): Line {
    if CriticalStageName(stage) then CriticalStage(stage.value) else IrrigationSchedule
  }

  /** The block of category `c`: nothing when it is not triggered. */
  function Block(r: RiskReport, c: Category, stage: Option<string>): seq<Line> {
    if !r.Get(c).warning then []
    else if c == Drought then [CategoryHeader(Drought), WaterConservation, StageLine(stage)]
    else [CategoryHeader(c)]
  }

  /** The alerts that are listed: the first `MaxDetails` of them. */
  function Shown(alerts: seq<Alert>): (shown: seq<Alert>)
    ensures shown <= alerts
    ensures |shown| == if |alerts| <= MaxDetails then |alerts| else MaxDetails
  {
    if |alerts| <= MaxDetails then alerts else alerts[..MaxDetails]
  }

  /** One detail line per alert of `xs`, in order. */
  function DetailRun(xs: seq<Alert>): seq<Line> {
    seq(|xs|, i requires 0 <= i < |xs| => Detail(xs[i]))
  }

  /** The marker line, present when some alerts were left out. */
  function Marker(alerts: seq<Alert>): seq<Line> {
    if |alerts| > MaxDetails then [MoreDetails] else []
  }

  /** The listed alerts as detail lines, then the marker when some were left out. */
  function DetailLines(alerts: seq<Alert>): seq<Line> {
    DetailRun(Shown(alerts)) + Marker(alerts)
  }

  /** The section listing the triggering alerts: absent when there are none. */
  function DetailsSection(alerts: seq<Alert>): seq<Line> {
    if alerts == [] then [] else [DetailsHeader] + DetailLines(alerts)
  }

  /** The header, then the block of every category in the fixed order. */
  function Categories(r: RiskReport, stage: Option<string>): seq<Line> {
    [AdvisoriesHeader]
    + Block(r, Drought, stage) + Block(r, FloodHeavyRain, stage) + Block(r, Heatwave, stage)
    + Block(r, Frost, stage) + Block(r, HighWind, stage) + Block(r, ProlongedHighHumidity, stage)
  }

  /** The advice for a report (None standing for a missing report) and a growth stage. */
  function Advice(risks: Option<RiskReport>, stage: Option<string>): seq<Line> {
    if risks.None? then [CouldNotGenerate]
    else if !AnyWarning(risks.value) then [NoSignificantRisks]
    else Categories(risks.value, stage) + DetailsSection(risks.value.overallAlerts) + [Separator, Disclaimer]
  }

  // ---------------------------------------------------------------------------
  // Views of a list of lines.

  /** The categories whose headers appear in `ls`, in order. */
  function HeadersOf(ls: seq<Line>): seq<Category> {
    if ls == [] then []
    else HeadersOf(ls[..|ls| - 1]) + if ls[|ls| - 1].CategoryHeader? then [ls[|ls| - 1].category] else []
  }

  /** The stage-dependent drought lines of `ls`, in order. */
  function StageLinesOf(ls: seq<Line>): seq<Line> {
    if ls == [] then []
    else StageLinesOf(ls[..|ls| - 1]) + if IsStageLine(ls[|ls| - 1]) then [ls[|ls| - 1]] else []
  }

  predicate IsStageLine(l: Line) {
    l.CriticalStage? || l.IrrigationSchedule?
  }

  /** The alerts of the detail lines of `ls`, in order. */
  function DetailsOf(ls: seq<Line>): seq<Alert> {
    if ls == [] then []
    else DetailsOf(ls[..|ls| - 1]) + if ls[|ls| - 1].Detail? then [ls[|ls| - 1].alert] else []
  }

  /** The triggered categories among `cs`, in order. */
  function Triggered(r: RiskReport, cs: seq<Category>): seq<Category> {
    if cs == [] then []
    else Triggered(r, cs[..|cs| - 1]) + if r.Get(cs[|cs| - 1]).warning then [cs[|cs| - 1]] else []
  }

  // ---------------------------------------------------------------------------
  // The composer.

  /** Appends the detail lines of `alerts`: one per alert up to `MaxDetails`,
      then the marker at the first alert past the limit. */
  method AppendDetails(advisories: seq<Line>, alerts: seq<Alert>) returns (out: seq<Line>)
    ensures out == advisories + DetailLines(alerts)
  {
    out := advisories;
    var i := 0;
    while i < |alerts|
      invariant 0 <= i <= |alerts| && i <= MaxDetails
      invariant out == advisories + seq(i, k requires 0 <= k < i => Detail(alerts[k]))
    {
      if i < MaxDetails {
        out := out + [Detail(alerts[i])];
      } else {
        out := out + [MoreDetails];
        break;
      }
      i := i + 1;
    }
  }

  /** Appends the drought block when drought is triggered: its header, the conservation
      line and the line for the growth stage. */
  method AppendDrought(advisories: seq<Line>, r: RiskReport, stage: Option<string>) returns (out: seq<Line>)
    ensures out == advisories + Block(r, Drought, stage)
  {
    out := advisories;
    if r.drought.warning {
      out := out + [CategoryHeader(Drought)];
      out := out + [WaterConservation];
      if CriticalStageName(stage) {
        out := out + [CriticalStage(stage.value)];
      } else {
        out := out + [IrrigationSchedule];
      }
      assert advisories + [CategoryHeader(Drought)] + [WaterConservation] + [StageLine(stage)]
          == advisories + [CategoryHeader(Drought), WaterConservation, StageLine(stage)];
    }
  }

  /** Appends the block of every triggered category, in the order drought, flood,
      heatwave, frost, wind, humidity. */
  method AppendBlocks(advisories: seq<Line>, r: RiskReport, stage: Option<string>) returns (out: seq<Line>)
    ensures out == advisories
      + Block(r, Drought, stage) + Block(r, FloodHeavyRain, stage) + Block(r, Heatwave, stage)
      + Block(r, Frost, stage) + Block(r, HighWind, stage) + Block(r, ProlongedHighHumidity, stage)
  {
    out := AppendDrought(advisories, r, stage);
    ghost var before := out;
    if r.floodHeavyRain.warning {
      out := out + [CategoryHeader(FloodHeavyRain)];
    }
    assert out == before + Block(r, FloodHeavyRain, stage);

    before := out;
    if r.heatwave.warning {
      out := out + [CategoryHeader(Heatwave)];
    }
    assert out == before + Block(r, Heatwave, stage);

    before := out;
    if r.frost.warning {
      out := out + [CategoryHeader(Frost)];
    }
    assert out == before + Block(r, Frost, stage);

    before := out;
    if r.highWind.warning {
      out := out + [CategoryHeader(HighWind)];
    }
    assert out == before + Block(r, HighWind, stage);

    before := out;
    if r.prolongedHighHumidity.warning {
      out := out + [CategoryHeader(ProlongedHighHumidity)];
    }
    assert out == before + Block(r, ProlongedHighHumidity, stage);
  }

  /** The advice lines for `risks` (None standing for a missing report) at growth stage `stage`. */
  method GenerateAdvisories(risks: Option<RiskReport>, stage: Option<string>) returns (advisories: seq<Line>)
    ensures risks.None? ==> advisories == [CouldNotGenerate]
    ensures risks.Some? && !AnyWarning(risks.value) ==> advisories == [NoSignificantRisks]
    ensures risks.Some? && AnyWarning(risks.value) ==>
      |advisories| >= 3 && advisories[0] == AdvisoriesHeader && advisories[|advisories| - 2..] == [Separator, Disclaimer]
    ensures advisories == Advice(risks, stage)
  {
    advisories := [];
    if risks.None? {
      advisories := advisories + [CouldNotGenerate];
      assert advisories == [CouldNotGenerate];
      return;
    }
    var r := risks.value;
    var hasAnyWarning := AnyWarning(r);
    if !hasAnyWarning {
      advisories := advisories + [NoSignificantRisks];
      assert advisories == [NoSignificantRisks];
      return;
    }

    advisories := advisories + [AdvisoriesHeader];
    assert advisories == [AdvisoriesHeader];
    advisories := AppendBlocks(advisories, r, stage);

    ghost var before := advisories;
    var overallAlerts := r.overallAlerts;
    if overallAlerts != [] {
      advisories := advisories + [DetailsHeader];
      advisories := AppendDetails(advisories, overallAlerts);
    }
    assert advisories == before + DetailsSection(overallAlerts);

    before := advisories;
    advisories := advisories + [Separator];
    advisories := advisories + [Disclaimer];
    assert before + [Separator] + [Disclaimer] == before + [Separator, Disclaimer];
  }

  // ---------------------------------------------------------------------------
  // What the advice says.

  lemma {:induction false} HeadersAppend(a: seq<Line>, b: seq<Line>)
    ensures HeadersOf(a + b) == HeadersOf(a) + HeadersOf(b)
    decreases |b|
  {
    if b == [] {
      assert a + b == a;
    } else {
      var n := |b| - 1;
      assert (a + b)[..|a + b| - 1] == a + b[..n];
      HeadersAppend(a, b[..n]);
    }
  }

  lemma {:induction false} StageLinesAppend(a: seq<Line>, b: seq<Line>)
    ensures StageLinesOf(a + b) == StageLinesOf(a) + StageLinesOf(b)
    decreases |b|
  {
    if b == [] {
      assert a + b == a;
    } else {
      var n := |b| - 1;
      assert (a + b)[..|a + b| - 1] == a + b[..n];
      StageLinesAppend(a, b[..n]);
    }
  }

  lemma {:induction false} DetailsAppend(a: seq<Line>, b: seq<Line>)
    ensures DetailsOf(a + b) == DetailsOf(a) + DetailsOf(b)
    decreases |b|
  {
    if b == [] {
      assert a + b == a;
    } else {
      var n := |b| - 1;
      assert (a + b)[..|a + b| - 1] == a + b[..n];
      DetailsAppend(a, b[..n]);
    }
  }

  /** Detail lines carry no header and no stage line, and list their alerts in order. */
  lemma {:induction false} DetailRunViews(xs: seq<Alert>)
    ensures HeadersOf(DetailRun(xs)) == []
    ensures StageLinesOf(DetailRun(xs)) == []
    ensures DetailsOf(DetailRun(xs)) == xs
    decreases |xs|
  {
    if xs != [] {
      var n := |xs| - 1;
      assert DetailRun(xs)[..n] == DetailRun(xs[..n]);
      DetailRunViews(xs[..n]);
      assert xs == xs[..n] + [xs[n]];
    }
  }

  /** Lines that are neither headers, stage lines nor details contribute to no view. */
  lemma {:induction false} PlainViews(ls: seq<Line>)
    requires forall i :: 0 <= i < |ls| ==> !ls[i].CategoryHeader? && !IsStageLine(ls[i]) && !ls[i].Detail?
    ensures HeadersOf(ls) == [] && StageLinesOf(ls) == [] && DetailsOf(ls) == []
    decreases |ls|
  {
    if ls != [] {
      PlainViews(ls[..|ls| - 1]);
    }
  }

  /** The views of a single line. */
  lemma SingleViews(l: Line)
    ensures HeadersOf([l]) == if l.CategoryHeader? then [l.category] else []
    ensures StageLinesOf([l]) == if IsStageLine(l) then [l] else []
    ensures DetailsOf([l]) == if l.Detail? then [l.alert] else []
  {
    assert [l][..0] == [];
  }

  /** The details section carries no category header. */
  lemma DetailsSectionHeaders(alerts: seq<Alert>)
    ensures HeadersOf(DetailsSection(alerts)) == []
  {
    if alerts != [] {
      DetailRunViews(Shown(alerts));
      PlainViews([DetailsHeader]);
      PlainViews(Marker(alerts));
      HeadersAppend([DetailsHeader], DetailLines(alerts));
      HeadersAppend(DetailRun(Shown(alerts)), Marker(alerts));
    }
  }

  /** The details section carries no stage line. */
  lemma DetailsSectionStageLines(alerts: seq<Alert>)
    ensures StageLinesOf(DetailsSection(alerts)) == []
  {
    if alerts != [] {
      DetailRunViews(Shown(alerts));
      PlainViews([DetailsHeader]);
      PlainViews(Marker(alerts));
      StageLinesAppend([DetailsHeader], DetailLines(alerts));
      StageLinesAppend(DetailRun(Shown(alerts)), Marker(alerts));
    }
  }

  /** The details section lists the shown alerts, in order. */
  lemma DetailsSectionDetails(alerts: seq<Alert>)
    ensures DetailsOf(DetailsSection(alerts)) == Shown(alerts)
  {
    if alerts != [] {
      DetailRunViews(Shown(alerts));
      PlainViews([DetailsHeader]);
      PlainViews(Marker(alerts));
      DetailsAppend([DetailsHeader], DetailLines(alerts));
      DetailsAppend(DetailRun(Shown(alerts)), Marker(alerts));
    }
  }

  /** The details header opens the section iff there are alerts; the marker closes it iff some were cut. */
  lemma DetailsSectionMarkers(alerts: seq<Alert>)
    ensures DetailsHeader in DetailsSection(alerts) <==> alerts != []
    ensures MoreDetails in DetailsSection(alerts) <==> |alerts| > MaxDetails
  {
    if alerts != [] {
      var run := DetailRun(Shown(alerts));
      assert forall i :: 0 <= i < |run| ==> run[i].Detail?;
    }
  }

  /** A triggered drought block: its header, the conservation line and the stage line. */
  lemma DroughtBlockViews(stage: Option<string>)
    ensures HeadersOf([CategoryHeader(Drought), WaterConservation, StageLine(stage)]) == [Drought]
    ensures StageLinesOf([CategoryHeader(Drought), WaterConservation, StageLine(stage)]) == [StageLine(stage)]
    ensures DetailsOf([CategoryHeader(Drought), WaterConservation, StageLine(stage)]) == []
  {
    var h, w, l := CategoryHeader(Drought), WaterConservation, StageLine(stage);
    var b := [h, w, l];
    assert b[..2] == [h, w];
    assert [h, w][..1] == [h];
    SingleViews(h);
  }

  /** The views of one category block. */
  lemma BlockViews(r: RiskReport, c: Category, stage: Option<string>)
    ensures HeadersOf(Block(r, c, stage)) == if r.Get(c).warning then [c] else []
    ensures StageLinesOf(Block(r, c, stage)) == if r.Get(c).warning && c == Drought then [StageLine(stage)] else []
    ensures DetailsOf(Block(r, c, stage)) == []
    ensures DetailsHeader !in Block(r, c, stage) && MoreDetails !in Block(r, c, stage)
  {
    if r.Get(c).warning && c == Drought {
      DroughtBlockViews(stage);
    } else if r.Get(c).warning {
      SingleViews(CategoryHeader(c));
    }
  }

  /** A category is listed as triggered exactly when it is among `cs` and its warning is set. */
  lemma {:induction false} TriggeredMeaning(r: RiskReport, cs: seq<Category>)
    ensures forall c :: c in Triggered(r, cs) <==> c in cs && r.Get(c).warning
    decreases |cs|
  {
    if cs != [] {
      var n := |cs| - 1;
      TriggeredMeaning(r, cs[..n]);
      assert cs == cs[..n] + [cs[n]];
    }
  }

  /** Appending a category block adds its header exactly when the category is triggered. */
  lemma HeadersStep(p: seq<Line>, r: RiskReport, c: Category, stage: Option<string>)
    ensures HeadersOf(p + Block(r, c, stage)) == HeadersOf(p) + if r.Get(c).warning then [c] else []
  {
    BlockViews(r, c, stage);
    HeadersAppend(p, Block(r, c, stage));
  }

  /** Appending a category block adds the stage line exactly when it is the triggered drought block. */
  lemma StageLinesStep(p: seq<Line>, r: RiskReport, c: Category, stage: Option<string>)
    ensures StageLinesOf(p + Block(r, c, stage)) ==
      StageLinesOf(p) + if r.Get(c).warning && c == Drought then [StageLine(stage)] else []
  {
    BlockViews(r, c, stage);
    StageLinesAppend(p, Block(r, c, stage));
  }

  /** Appending a category block adds no detail. */
  lemma DetailsStep(p: seq<Line>, r: RiskReport, c: Category, stage: Option<string>)
    ensures DetailsOf(p + Block(r, c, stage)) == DetailsOf(p)
  {
    BlockViews(r, c, stage);
    DetailsAppend(p, Block(r, c, stage));
  }

  /** Some category is triggered exactly when the list of triggered categories is not empty. */
  lemma AnyWarningTriggered(r: RiskReport)
    ensures AnyWarning(r) <==> Triggered(r, CategoryOrder) != []
  {
    TriggeredInOrder(r);
  }

  /** The six flags tested are those of all the categories. */
  lemma AnyWarningMeaning(r: RiskReport)
    ensures AnyWarning(r) <==> exists c: Category :: r.Get(c).warning
  {
    if AnyWarning(r) {
      var c :=
        if r.drought.warning then Drought
        else if r.floodHeavyRain.warning then FloodHeavyRain
        else if r.heatwave.warning then Heatwave
        else if r.frost.warning then Frost
        else if r.highWind.warning then HighWind
        else ProlongedHighHumidity;
      assert r.Get(c).warning;
    }
  }

  /** The triggered categories, written out in the block order. */
  lemma TriggeredInOrder(r: RiskReport)
    ensures Triggered(r, CategoryOrder) ==
      (if r.drought.warning then [Drought] else [])
      + (if r.floodHeavyRain.warning then [FloodHeavyRain] else [])
      + (if r.heatwave.warning then [Heatwave] else [])
      + (if r.frost.warning then [Frost] else [])
      + (if r.highWind.warning then [HighWind] else [])
      + (if r.prolongedHighHumidity.warning then [ProlongedHighHumidity] else [])
  {
    var c1 := [Drought];
    var c2 := c1 + [FloodHeavyRain];
    var c3 := c2 + [Heatwave];
    var c4 := c3 + [Frost];
    var c5 := c4 + [HighWind];
    var c6 := c5 + [ProlongedHighHumidity];
    assert c6 == CategoryOrder;
    assert c1[..0] == [];
    assert c2[..1] == c1;
    assert c3[..2] == c2;
    assert c4[..3] == c3;
    assert c5[..4] == c4;
    assert c6[..5] == c5;
    assert Triggered(r, c1) == [] + if r.drought.warning then [Drought] else [];
    assert Triggered(r, c1) == if r.drought.warning then [Drought] else [];
    assert Triggered(r, c2) == Triggered(r, c1) + if r.floodHeavyRain.warning then [FloodHeavyRain] else [];
    assert Triggered(r, c3) == Triggered(r, c2) + if r.heatwave.warning then [Heatwave] else [];
    assert Triggered(r, c4) == Triggered(r, c3) + if r.frost.warning then [Frost] else [];
    assert Triggered(r, c5) == Triggered(r, c4) + if r.highWind.warning then [HighWind] else [];
  }

  /** The header and blocks carry the headers of the triggered categories, in the block order. */
  lemma CategoriesHeaders(r: RiskReport, stage: Option<string>)
    ensures HeadersOf(Categories(r, stage)) ==
      (if r.drought.warning then [Drought] else [])
      + (if r.floodHeavyRain.warning then [FloodHeavyRain] else [])
      + (if r.heatwave.warning then [Heatwave] else [])
      + (if r.frost.warning then [Frost] else [])
      + (if r.highWind.warning then [HighWind] else [])
      + (if r.prolongedHighHumidity.warning then [ProlongedHighHumidity] else [])
  {
    var p0 := [AdvisoriesHeader];
    var p1 := p0 + Block(r, Drought, stage);
    var p2 := p1 + Block(r, FloodHeavyRain, stage);
    var p3 := p2 + Block(r, Heatwave, stage);
    var p4 := p3 + Block(r, Frost, stage);
    var p5 := p4 + Block(r, HighWind, stage);
    PlainViews(p0);
    HeadersStep(p0, r, Drought, stage);
    assert HeadersOf(p1) == if r.drought.warning then [Drought] else [];
    HeadersStep(p1, r, FloodHeavyRain, stage);
    HeadersStep(p2, r, Heatwave, stage);
    HeadersStep(p3, r, Frost, stage);
    HeadersStep(p4, r, HighWind, stage);
    HeadersStep(p5, r, ProlongedHighHumidity, stage);
  }


  /** Closing the advice adds no header. */
  lemma FrameHeaders(c: seq<Line>, ds: seq<Line>)
    requires HeadersOf(ds) == []
    ensures HeadersOf(c + ds + [Separator, Disclaimer]) == HeadersOf(c)
  {
    HeadersAppend(c, ds);
    assert HeadersOf(c + ds) == HeadersOf(c);
    PlainViews([Separator, Disclaimer]);
    HeadersAppend(c + ds, [Separator, Disclaimer]);
  }

  /** A category header appears exactly for the triggered categories, in the block order. */
  lemma AdviceHeaders(r: RiskReport, stage: Option<string>)
    ensures HeadersOf(Advice(Some(r), stage)) == Triggered(r, CategoryOrder)
  {
    TriggeredInOrder(r);
    if !AnyWarning(r) {
      PlainViews([NoSignificantRisks]);
      AnyWarningTriggered(r);
    } else {
      DetailsSectionHeaders(r.overallAlerts);
      FrameHeaders(Categories(r, stage), DetailsSection(r.overallAlerts));
      CategoriesHeaders(r, stage);
    }
  }


  /** The header and blocks carry the stage line exactly when drought is triggered. */
  lemma CategoriesStageLines(r: RiskReport, stage: Option<string>)
    ensures StageLinesOf(Categories(r, stage)) ==
      if r.drought.warning then [StageLine(stage)] else []
  {
    var p0 := [AdvisoriesHeader];
    var p1 := p0 + Block(r, Drought, stage);
    var p2 := p1 + Block(r, FloodHeavyRain, stage);
    var p3 := p2 + Block(r, Heatwave, stage);
    var p4 := p3 + Block(r, Frost, stage);
    var p5 := p4 + Block(r, HighWind, stage);
    PlainViews(p0);
    StageLinesStep(p0, r, Drought, stage);
    assert StageLinesOf(p1) == if r.drought.warning then [StageLine(stage)] else [];
    StageLinesStep(p1, r, FloodHeavyRain, stage);
    assert StageLinesOf(p2) == if r.drought.warning then [StageLine(stage)] else [];
    StageLinesStep(p2, r, Heatwave, stage);
    assert StageLinesOf(p3) == if r.drought.warning then [StageLine(stage)] else [];
    StageLinesStep(p3, r, Frost, stage);
    assert StageLinesOf(p4) == if r.drought.warning then [StageLine(stage)] else [];
    StageLinesStep(p4, r, HighWind, stage);
    assert StageLinesOf(p5) == if r.drought.warning then [StageLine(stage)] else [];
    StageLinesStep(p5, r, ProlongedHighHumidity, stage);
  }


  /** The header and blocks carry no detail. */
  lemma CategoriesDetails(r: RiskReport, stage: Option<string>)
    ensures DetailsOf(Categories(r, stage)) ==
      []
  {
    var p0 := [AdvisoriesHeader];
    var p1 := p0 + Block(r, Drought, stage);
    var p2 := p1 + Block(r, FloodHeavyRain, stage);
    var p3 := p2 + Block(r, Heatwave, stage);
    var p4 := p3 + Block(r, Frost, stage);
    var p5 := p4 + Block(r, HighWind, stage);
    PlainViews(p0);
    DetailsStep(p0, r, Drought, stage);
    assert DetailsOf(p1) == [];
    DetailsStep(p1, r, FloodHeavyRain, stage);
    assert DetailsOf(p2) == [];
    DetailsStep(p2, r, Heatwave, stage);
    assert DetailsOf(p3) == [];
    DetailsStep(p3, r, Frost, stage);
    assert DetailsOf(p4) == [];
    DetailsStep(p4, r, HighWind, stage);
    assert DetailsOf(p5) == [];
    DetailsStep(p5, r, ProlongedHighHumidity, stage);
  }


  /** Closing the advice adds no stage line. */
  lemma FrameStageLines(c: seq<Line>, ds: seq<Line>)
    requires StageLinesOf(ds) == []
    ensures StageLinesOf(c + ds + [Separator, Disclaimer]) == StageLinesOf(c)
  {
    StageLinesAppend(c, ds);
    assert StageLinesOf(c + ds) == StageLinesOf(c);
    PlainViews([Separator, Disclaimer]);
    StageLinesAppend(c + ds, [Separator, Disclaimer]);
  }

  /** The drought advice holds exactly one stage line: the critical-stage line at flowering or
      fruiting/maturity, the irrigation-schedule line otherwise. Without drought there is none. */
  lemma AdviceStageLines(r: RiskReport, stage: Option<string>)
    ensures StageLinesOf(Advice(Some(r), stage)) == if r.drought.warning then [StageLine(stage)] else []
  {
    if !AnyWarning(r) {
      PlainViews([NoSignificantRisks]);
    } else {
      DetailsSectionStageLines(r.overallAlerts);
      FrameStageLines(Categories(r, stage), DetailsSection(r.overallAlerts));
      CategoriesStageLines(r, stage);
    }
  }


  /** Which stage line the advice holds, read as membership. */
  lemma AdviceStageLine(r: RiskReport, stage: Option<string>)
    ensures CriticalStageName(stage) ==>
      (CriticalStage(stage.value) in Advice(Some(r), stage) <==> r.drought.warning)
    ensures IrrigationSchedule in Advice(Some(r), stage) <==> r.drought.warning && !CriticalStageName(stage)
  {
    AdviceStageLines(r, stage);
    StageLinesMembers(Advice(Some(r), stage));
  }

  /** A stage line is in `ls` exactly when it is among the stage lines of `ls`. */
  lemma {:induction false} StageLinesMembers(ls: seq<Line>)
    ensures forall l :: IsStageLine(l) ==> (l in ls <==> l in StageLinesOf(ls))
    decreases |ls|
  {
    if ls != [] {
      var n := |ls| - 1;
      StageLinesMembers(ls[..n]);
      assert ls == ls[..n] + [ls[n]];
    }
  }

  /** Closing the advice adds no detail. */
  lemma FrameDetails(c: seq<Line>, ds: seq<Line>)
    ensures DetailsOf(c + ds + [Separator, Disclaimer]) == DetailsOf(c) + DetailsOf(ds)
  {
    DetailsAppend(c, ds);
    PlainViews([Separator, Disclaimer]);
    DetailsAppend(c + ds, [Separator, Disclaimer]);
    assert DetailsOf(c + ds) + [] == DetailsOf(c + ds);
  }

  /** The detail lines list the first `MaxDetails` alerts in order, and only when something is triggered. */
  lemma AdviceDetails(r: RiskReport, stage: Option<string>)
    ensures DetailsOf(Advice(Some(r), stage)) == if AnyWarning(r) then Shown(r.overallAlerts) else []
  {
    if !AnyWarning(r) {
      PlainViews([NoSignificantRisks]);
    } else {
      DetailsSectionDetails(r.overallAlerts);
      FrameDetails(Categories(r, stage), DetailsSection(r.overallAlerts));
      CategoriesDetails(r, stage);
      assert [] + Shown(r.overallAlerts) == Shown(r.overallAlerts);
    }
  }


  /** The header and blocks hold neither the details header nor the marker. */
  lemma CategoriesPlain(r: RiskReport, stage: Option<string>)
    ensures DetailsHeader !in Categories(r, stage) && MoreDetails !in Categories(r, stage)
  {
    BlockViews(r, Drought, stage);
    BlockViews(r, FloodHeavyRain, stage);
    BlockViews(r, Heatwave, stage);
    BlockViews(r, Frost, stage);
    BlockViews(r, HighWind, stage);
    BlockViews(r, ProlongedHighHumidity, stage);
  }

  /** The details header is written exactly when alerts are listed, and the marker exactly
      when more than `MaxDetails` alerts were raised. */
  lemma AdviceMarkers(r: RiskReport, stage: Option<string>)
    ensures DetailsHeader in Advice(Some(r), stage) <==> AnyWarning(r) && r.overallAlerts != []
    ensures MoreDetails in Advice(Some(r), stage) <==> AnyWarning(r) && |r.overallAlerts| > MaxDetails
  {
    if AnyWarning(r) {
      CategoriesPlain(r, stage);
      DetailsSectionMarkers(r.overallAlerts);
    }
  }
}
