/** `summarize`: one pass over the cases, one over the ten bins, and the report they make. */
module PersonSummary {
  import opened Options
  import opened Reals
  import opened PersonReport

  datatype Bin = Bin(index: nat, count: nat, mean: real, observed: real)

  datatype Calibration = Calibration(ece: Option<real>, brier: Option<real>, brierAll: real, bins: seq<Bin>)

  datatype Report = Report(
    planned: nat, valid: nat, errors: nat, unrun: nat, confusion: Confusion,
    accuracy: real, coverage: real, precision: Option<real>, personRecall: real, nobodyRecall: real,
    falsePositives: real, errorFraction: real,
    calibration: Calibration, p50: Option<nat>, p95: Option<nat>, p99: Option<nat>)

  function Ratio(a: real, b: real): Option<real> {
    if b == 0.0 then None else Some(a / b)
  }

  function Share(part: nat, whole: nat): real
    requires whole > 0
  {
    part as real / whole as real
  }

  function SumOfScores(samples: seq<Sample>): real {
    if samples == [] then 0.0 else SumOfScores(samples[..|samples| - 1]) + samples[|samples| - 1].score
  }

  function SumOfTruths(samples: seq<Sample>): int {
    if samples == [] then 0 else SumOfTruths(samples[..|samples| - 1]) + samples[|samples| - 1].truth
  }

  function BinFor(index: nat, group: seq<Sample>): Bin
    requires group != []
  {
    Bin(index, |group|, SumOfScores(group) / |group| as real, SumOfTruths(group) as real / |group| as real)
  }

  /** The bins that hold a sample, in order. */
  function BinsOf(samples: seq<Sample>, bins: nat): seq<Bin> {
    if bins == 0 then []
    else
      var group := Group(samples, bins - 1);
      BinsOf(samples, bins - 1) + if group == [] then [] else [BinFor(bins - 1, group)]
  }

  function CalibrationOf(slots: seq<Slot>): Calibration
    requires slots != []
  {
    var samples := Samples(slots);
    Calibration(if samples == [] then None else Some(Ece(samples)), if samples == [] then None
        else Some(Brier(samples)),
                TotalLoss(slots) / |slots| as real, BinsOf(samples, 10))
  }

  function ReportOf(slots: seq<Slot>): Report
    requires slots != [] && Total(ConfusionOf(slots).person) > 0 && Total(ConfusionOf(slots).nobody) > 0
  {
    var c, n, ms := ConfusionOf(slots), |slots| as real, Latencies(slots);
    var positives, negatives := Total(c.person) as real, Total(c.nobody) as real;
    Report(|slots|, |Samples(slots)|, CountOf(slots, IsError), CountOf(slots, IsUnrun), c,
           (c.person.person + c.nobody.nobody) as real / n, Share(|Samples(slots)|, |slots|),
           Ratio(c.person.person as real, (c.person.person + c.nobody.person) as real),
           c.person.person as real / positives, c.nobody.nobody as real / negatives,
               c.nobody.person as real / negatives,
           CountOf(slots, IsError) as real / n,
           CalibrationOf(slots), Nearest(50, ms), Nearest(95, ms), Nearest(99, ms))
  }

  // ---- What every report satisfies ----

  function SumOfCounts(bins: seq<Bin>): nat {
    if bins == [] then 0 else SumOfCounts(bins[..|bins| - 1]) + bins[|bins| - 1].count
  }

  lemma BinCount(index: nat, group: seq<Sample>)
    requires group != []
    ensures BinFor(index, group).count == |group|
  {
    hide SumOfScores, SumOfTruths;
  }

  lemma {:induction false} BinsCountGroups(samples: seq<Sample>, bins: nat)
    ensures SumOfCounts(BinsOf(samples, bins)) == GroupSizes(samples, bins)
  {
    hide Group, BinFor;
    if bins > 0 {
      BinsCountGroups(samples, bins - 1);
      var group := Group(samples, bins - 1);
      if group == [] {
        assert BinsOf(samples, bins) == BinsOf(samples, bins - 1);
      } else {
        BinCount(bins - 1, group);
        assert BinsOf(samples, bins)[..|BinsOf(samples, bins)| - 1] == BinsOf(samples, bins - 1);
      }
    }
  }

  lemma {:induction false} ScoresWithin(group: seq<Sample>, low: real, high: real)
    requires forall s <- group :: low <= s.score <= high
    ensures |group| as real * low <= SumOfScores(group) <= |group| as real * high
  {
    if group != [] {
      var init, k := group[..|group| - 1], (|group| - 1) as real;
      assert low <= group[|group| - 1].score <= high;
      ScoresWithin(init, low, high);
      assert |group| as real == k + 1.0;
      assert (k + 1.0) * low == k * low + low && (k + 1.0) * high == k * high + high;
    }
  }

  lemma {:induction false} TruthsWithin(group: seq<Sample>)
    requires forall s <- group :: 0 <= s.truth <= 1
    ensures 0 <= SumOfTruths(group) <= |group|
  {
    if group != [] {
      assert 0 <= group[|group| - 1].truth <= 1;
      TruthsWithin(group[..|group| - 1]);
    }
  }

  predicate InRange(bin: Bin) {
    bin.index as real / 10.0 <= bin.mean <= (bin.index + 1) as real / 10.0 && 0.0 <= bin.observed <= 1.0
        && bin.count > 0
  }

  lemma QuotientBetween(x: real, n: real, low: real, high: real)
    requires n > 0.0 && n * low <= x <= n * high
    ensures low <= x / n <= high
  {
    var y := x / n;
    assert x == n * y;
    Cancel(n, low, y);
    Cancel(n, y, high);
  }

  lemma BinInRange(samples: seq<Sample>, index: nat)
    requires index < 10 && Group(samples, index) != [] && forall s <- samples :: Fair(s)
    ensures InRange(BinFor(index, Group(samples, index)))
  {
    hide SumOfScores, SumOfTruths, Group;
    var group := Group(samples, index);
    var low, high := index as real / 10.0, (index + 1) as real / 10.0;
    forall s | s in group ensures low <= s.score <= high && 0 <= s.truth <= 1 {
      assert s in samples && Fair(s) && BinOf(s.score) == index;
    }
    ScoresWithin(group, low, high);
    TruthsWithin(group);
    QuotientBetween(SumOfScores(group), |group| as real, low, high);
    QuotientBetween(SumOfTruths(group) as real, |group| as real, 0.0, 1.0);
  }

  lemma {:induction false} BinsInRange(samples: seq<Sample>, bins: nat)
    requires bins <= 10 && forall s <- samples :: Fair(s)
    ensures forall bin <- BinsOf(samples, bins) :: InRange(bin)
  {
    hide Group, BinFor, InRange;
    if bins > 0 {
      BinsInRange(samples, bins - 1);
      if Group(samples, bins - 1) != [] {
        BinInRange(samples, bins - 1);
      }
    }
  }

  /** The confusion cells, and the three outcomes, add up to the planned cases. */
  predicate CasesAddUp(r: Report) {
    && r.planned > 0
    && r.valid + r.errors + r.unrun == r.planned
    && Total(r.confusion.person) + Total(r.confusion.nobody) == r.planned
  }

  /** The bins add up to the valid replies, and the mean of a bin lies in it. */
  ghost predicate BinsAddUp(r: Report) {
    SumOfCounts(r.calibration.bins) == r.valid && forall bin <- r.calibration.bins :: InRange(bin)
  }

  /** The calibration error is a fraction whose square is at most the Brier score of the valid replies. */
  predicate ErrorWithinBrier(r: Report) {
    var k := r.calibration;
    && (k.ece.Some? == k.brier.Some? == (r.valid > 0))
    && (k.ece.Some? ==> 0.0 <= k.ece.value <= 1.0 && k.ece.value * k.ece.value <= k.brier.value)
  }

  /** A valid reply weighs what it scored, any other slot one. */
  function Weighed(valid: nat, brier: Option<real>, missed: int, planned: nat): real
    requires planned > 0
  {
    (if brier.None? then 0.0 else Share(valid, planned) * brier.value) + missed as real / planned as real
  }

  /** Over all slots that score is weighted by coverage, and one for the rest. */
  predicate BrierOverAll(r: Report) {
    && r.planned > 0 && r.coverage == Share(r.valid, r.planned)
    && r.calibration.brierAll == Weighed(r.valid, r.calibration.brier, r.errors + r.unrun, r.planned)
  }

  predicate PercentilesInOrder(r: Report) {
    && (r.p50.Some? == r.p95.Some? == r.p99.Some? == (r.valid + r.errors > 0))
    && (r.p50.Some? ==> r.p50.value <= r.p95.value <= r.p99.value)
  }

  /** What holds between the numbers of any report. */
  ghost predicate Consistent(r: Report) {
    CasesAddUp(r) && BinsAddUp(r) && ErrorWithinBrier(r) && BrierOverAll(r) && PercentilesInOrder(r)
  }

  predicate Reportable(slots: seq<Slot>) {
    && slots != [] && Total(ConfusionOf(slots).person) > 0 && Total(ConfusionOf(slots).nobody) > 0
    && forall slot <- slots :: slot.Scored? ==> 0.0 <= slot.score <= 1.0
  }

  lemma RowTotals(c: Confusion)
    ensures Total(c.person) == c.person.person + c.person.nobody + c.person.error + c.person.unrun
    ensures Total(c.nobody) == c.nobody.person + c.nobody.nobody + c.nobody.error + c.nobody.unrun
  {
  }

  lemma CasesOfReport(slots: seq<Slot>)
    requires Reportable(slots)
    ensures CasesAddUp(ReportOf(slots))
  {
    hide CountOf, Samples, ConfusionOf, Latencies, Nearest, CalibrationOf, Total;
    ConfusionRows(slots);
    ConfusionColumns(slots);
    RowTotals(ConfusionOf(slots));
  }

  lemma BinsOfReport(slots: seq<Slot>)
    requires Reportable(slots)
    ensures BinsAddUp(ReportOf(slots))
  {
    hide CountOf, Samples, ConfusionOf, TotalLoss, BinsOf, Ece, Brier, Latencies, Nearest, InRange, SumOfCounts,
        GroupSizes, Total;
    var samples := Samples(slots);
    SamplesAreFair(slots);
    BinsPartition(samples);
    BinsCountGroups(samples, 10);
    BinsInRange(samples, 10);
  }

  lemma ErrorOfReport(slots: seq<Slot>)
    requires Reportable(slots)
    ensures ErrorWithinBrier(ReportOf(slots))
  {
    hide CountOf, Samples, ConfusionOf, TotalLoss, BinsOf, Ece, Brier, Latencies, Nearest, Total;
    SamplesAreFair(slots);
    if Samples(slots) != [] {
      CalibrationWithinBrier(Samples(slots));
    }
  }

  lemma LossIsWeighed(slots: seq<Slot>)
    requires slots != []
    ensures var v := |Samples(slots)|;
            CalibrationOf(slots).brierAll
              == Weighed(v, CalibrationOf(slots).brier, |slots| - v, |slots|)
  {
    hide Samples, TotalLoss, Brier, Ece, BinsOf;
    AllSlotBrier(slots);
  }

  lemma BrierFields(slots: seq<Slot>)
    requires Reportable(slots)
    ensures var r := ReportOf(slots);
            && r.planned == |slots| && r.valid == |Samples(slots)| && r.calibration == CalibrationOf(slots)
            && r.coverage == Share(|Samples(slots)|, |slots|)
  {
    hide CountOf, Samples, ConfusionOf, CalibrationOf, Latencies, Nearest, Total;
  }

  lemma FieldsWeigh(r: Report, v: nat, n: nat)
    requires CasesAddUp(r) && r.planned == n > 0 && r.valid == v && r.coverage == Share(v, n)
    requires r.calibration.brierAll == Weighed(v, r.calibration.brier, n - v, n)
    ensures BrierOverAll(r)
  {
    hide Share, Weighed, Total;
  }

  lemma BrierOfReport(slots: seq<Slot>)
    requires Reportable(slots)
    ensures BrierOverAll(ReportOf(slots))
  {
    hide ReportOf, CalibrationOf, ConfusionOf, Samples, Total, Share, Weighed, CasesAddUp, BrierOverAll;
    CasesOfReport(slots);
    BrierFields(slots);
    LossIsWeighed(slots);
    FieldsWeigh(ReportOf(slots), |Samples(slots)|, |slots|);
  }

  lemma NearestExists(ms: seq<nat>)
    ensures forall percent :: 1 <= percent <= 100 ==> Nearest(percent, ms).Some? == (ms != [])
  {
  }

  lemma {:induction false} LatenciesCount(slots: seq<Slot>)
    ensures |Latencies(slots)| == |slots| - CountOf(slots, IsUnrun)
  {
    if slots != [] {
      LatenciesCount(slots[..|slots| - 1]);
    }
  }

  lemma PercentilesOfReport(slots: seq<Slot>)
    requires Reportable(slots)
    ensures PercentilesInOrder(ReportOf(slots))
  {
    CasesOfReport(slots);
    hide CountOf, Samples, ConfusionOf, CalibrationOf, Latencies, Nearest, Total;
    var ms := Latencies(slots);
    LatenciesCount(slots);
    NearestExists(ms);
    if ms != [] {
      PercentilesAscend(ms, 50, 95);
      PercentilesAscend(ms, 95, 99);
    }
  }

  lemma ReportsAreConsistent(slots: seq<Slot>)
    requires Reportable(slots)
    ensures Consistent(ReportOf(slots))
  {
    hide ReportOf, CasesAddUp, BinsAddUp, ErrorWithinBrier, BrierOverAll, PercentilesInOrder;
    CasesOfReport(slots);
    BinsOfReport(slots);
    ErrorOfReport(slots);
    BrierOfReport(slots);
    PercentilesOfReport(slots);
  }

  // ---- The computation ----

  /** The counters after the cases so far. */
  datatype Tally = Tally(valid: nat, errors: nat, unrun: nat, loss: real, confusion: Confusion, samples: seq<Sample>,
      latencies: seq<nat>)

  function TallyOf(slots: seq<Slot>): Tally {
    Tally(|Samples(slots)|, CountOf(slots, IsError), CountOf(slots, IsUnrun), TotalLoss(slots), ConfusionOf(slots),
        Samples(slots), Latencies(slots))
  }

  function TallyMore(t: Tally, slot: Slot): Tally {
    var t' := t.(confusion := Counted(t.confusion, slot));
    match slot
    case Unrun(_) => t'.(unrun := t.unrun + 1, loss := t.loss + 1.0)
    case Error(_, ms) => t'.(errors := t.errors + 1, loss := t.loss + 1.0, latencies := t.latencies + [ms])
    case Scored(expected, ms, score) =>
      var truth := Truth(expected);
      t'.(valid := t.valid + 1, loss := t.loss + (score - truth as real) * (score - truth as real),
          samples := t.samples + [Sample(score, truth)], latencies := t.latencies + [ms])
  }

  lemma TallyOfMore(slots: seq<Slot>, slot: Slot)
    ensures TallyOf(slots + [slot]) == TallyMore(TallyOf(slots), slot)
  {
    assert (slots + [slot])[..|slots|] == slots;
  }

  lemma NothingTallied()
    ensures TallyOf([]) == Tally(0, 0, 0, 0.0, EMPTY, [], [])
  {
  }

  lemma SlotsOfMore(cases: seq<Case>, records: map<string, Record>, i: nat)
    requires i < |cases|
    requires forall j :: 0 <= j <= i && cases[j].id in records ==> Acceptable(cases[j], records[cases[j].id])
    ensures (forall c <- cases[..i + 1] :: c.id in records ==> Acceptable(c, records[c.id]))
    ensures (forall c <- cases[..i] :: c.id in records ==> Acceptable(c, records[c.id]))
    ensures Slots(cases[..i + 1], records) == Slots(cases[..i], records) + [SlotOf(cases[i], records)]
  {
    hide Acceptable;
    assert cases[..i + 1][..i] == cases[..i];
  }

  lemma MsIsNatural(c: Case, r: Record)
    requires Acceptable(c, r)
    ensures r.ms >= 0 && (r.status.Failed? || r.status.Valid?)
  {
  }

  /** One pass: every case is counted once, and the first unacceptable record ends it. */
  method TallyCases(cases: seq<Case>, records: map<string, Record>) returns (t: Option<Tally>)
    ensures t.Some? <==> forall c <- cases :: c.id in records ==> Acceptable(c, records[c.id])
    ensures t.Some? ==> t.value == TallyOf(Slots(cases, records))
  {
    hide Acceptable, TallyOf, Counted;
    var valid, errors, unrun, loss := 0, 0, 0, 0.0;
    var confusion, samples := EMPTY, [];
    var latencies: seq<nat> := [];
    NothingTallied();
    for i := 0 to |cases|
      invariant forall j :: 0 <= j < i && cases[j].id in records ==> Acceptable(cases[j], records[cases[j].id])
      invariant Tally(valid, errors, unrun, loss, confusion, samples, latencies) == TallyOf(Slots(cases[..i], records))
    {
      var c := cases[i];
      if c.id in records && !Acceptable(c, records[c.id]) { return None; }
      SlotsOfMore(cases, records, i);
      TallyOfMore(Slots(cases[..i], records), SlotOf(c, records));
      confusion := Counted(confusion, SlotOf(c, records));
      if c.id !in records {
        unrun, loss := unrun + 1, loss + 1.0;
      } else {
        var r := records[c.id];
        MsIsNatural(c, r);
        latencies := latencies + [r.ms];
        if r.status.Failed? {
          errors, loss := errors + 1, loss + 1.0;
        } else {
          var truth := Truth(c.expected);
          valid, samples := valid + 1, samples + [Sample(r.score, truth)];
          loss := loss + (r.score - truth as real) * (r.score - truth as real);
        }
      }
    }
    assert cases[..|cases|] == cases;
    t := Some(Tally(valid, errors, unrun, loss, confusion, samples, latencies));
  }

  lemma {:induction false} MissesSplit(group: seq<Sample>)
    ensures SumOfMisses(group) == SumOfScores(group) - SumOfTruths(group) as real
  {
    if group != [] {
      MissesSplit(group[..|group| - 1]);
    }
  }

  lemma Shares(x: real, y: real, g: real)
    requires g > 0.0
    ensures x / g - y / g == (x - y) / g
  {
  }

  lemma AbsOfQuotient(m: real, g: real)
    requires g > 0.0
    ensures Abs(m / g) == Abs(m) / g
  {
    var q := m / g;
    assert m == q * g;
    if m < 0.0 {
      assert q < 0.0;
      assert (-q) * g == -m;
    } else {
      assert q >= 0.0;
    }
  }

  /** What a bin adds to the calibration error: its share of the samples times how far its mean is from what was
      observed. */
  lemma BinShare(group: seq<Sample>, n: real)
    requires group != [] && n > 0.0
    ensures |group| as real / n
            * Abs(SumOfScores(group) / |group| as real - SumOfTruths(group) as real / |group| as real)
         == Abs(SumOfMisses(group)) / n
  {
    hide SumOfScores, SumOfTruths, SumOfMisses;
    MissesSplit(group);
    var g, m := |group| as real, SumOfMisses(group);
    Shares(SumOfScores(group), SumOfTruths(group) as real, g);
    AbsOfQuotient(m, g);
    Weighted(g, n, Abs(m));
  }

  lemma EmptyGroup()
    ensures SumOfMisses([]) == 0.0
  {
  }

  /** The second pass: the bins that hold samples, and the calibration error. */
  method Calibrate(samples: seq<Sample>) returns (bins: seq<Bin>, ece: real)
    requires samples != []
    ensures bins == BinsOf(samples, 10) && ece == Ece(samples)
  {
    hide SumOfScores, SumOfTruths, Group, SumOfMisses;
    bins, ece := [], 0.0;
    var n := |samples| as real;
    for index := 0 to 10
      invariant bins == BinsOf(samples, index) && ece == BinDistances(samples, index) / n
    {
      var group := Group(samples, index);
      if group != [] {
        var mean := SumOfScores(group) / |group| as real;
        var observed := SumOfTruths(group) as real / |group| as real;
        ece := ece + |group| as real / n * Abs(mean - observed);
        bins := bins + [Bin(index, |group|, mean, observed)];
        BinShare(group, n);
        QuotientOfSum(BinDistances(samples, index), Abs(SumOfMisses(group)), n);
      } else {
        EmptyGroup();
      }
    }
  }

  lemma {:induction false} RowsAreOccupied(cases: seq<Case>, records: map<string, Record>, c: Case)
    requires (forall c <- cases :: c.id in records ==> Acceptable(c, records[c.id])) && c in cases
    ensures var confusion := ConfusionOf(Slots(cases, records));
            if c.expected.Person? then Total(confusion.person) > 0 else Total(confusion.nobody) > 0
  {
    hide Acceptable, SlotOf, Marked, Total;
    var init, last := cases[..|cases| - 1], cases[|cases| - 1];
    assert cases == init + [last];
    var slots := Slots(cases, records);
    assert slots[..|slots| - 1] == Slots(init, records);
    MarkedTotal(ConfusionOf(Slots(init, records)).person, slots[|slots| - 1]);
    MarkedTotal(ConfusionOf(Slots(init, records)).nobody, slots[|slots| - 1]);
    if c in init {
      RowsAreOccupied(init, records, c);
    }
  }

  /** The cases of both labels fill both rows, so that every ratio of the report has a divisor. */
  lemma GoldFillsRows(cases: seq<Case>, records: map<string, Record>)
    requires WellFormed(cases, records)
    ensures var slots := Slots(cases, records);
            slots != [] && Total(ConfusionOf(slots).person) > 0 && Total(ConfusionOf(slots).nobody) > 0
  {
    hide Acceptable, SlotOf, ConfusionOf, Slots, Total;
    var c :| c in cases && c.expected.Person?;
    var d :| d in cases && d.expected.Nobody?;
    RowsAreOccupied(cases, records, c);
    RowsAreOccupied(cases, records, d);
  }

  lemma {:induction false} SlotsAreFair(cases: seq<Case>, records: map<string, Record>)
    requires forall c <- cases :: c.id in records ==> Acceptable(c, records[c.id])
    ensures forall slot <- Slots(cases, records) :: slot.Scored? ==> 0.0 <= slot.score <= 1.0
  {
    hide Acceptable;
    if cases != [] {
      var init, last := cases[..|cases| - 1], cases[|cases| - 1];
      assert cases == init + [last];
      SlotsAreFair(init, records);
    }
  }

  lemma {:induction false} NoBins(bins: nat)
    ensures BinsOf([], bins) == []
  {
    if bins > 0 {
      NoBins(bins - 1);
      assert Group([], bins - 1) == [];
    }
  }

  /** What the tool asserts of its input: distinct cases with both labels, and for some of them one untouched attempt
      whose prediction is what its score says. */
  ghost predicate Reviewed(cases: seq<Case>, records: map<string, Record>) {
    && (forall i, j :: 0 <= i < j < |cases| ==> cases[i].id != cases[j].id)
    && (exists c <- cases :: c.expected == Person) && (exists c <- cases :: c.expected == Nobody)
    && (forall id <- records :: exists c <- cases :: c.id == id)
    && forall c <- cases :: c.id in records ==>
         var r := records[c.id];
         && r.digest == c.digest && r.attempts == 1 && r.retries == 0 && r.ms >= 0
         && (r.status == Failed || (r.status == Valid && 0.0 <= r.score <= 1.0
                                    && r.predicted == if r.score < 0.5 then Nobody else Person))
  }

  lemma WellFormedMeans(cases: seq<Case>, records: map<string, Record>)
    ensures WellFormed(cases, records) <==> Reviewed(cases, records)
  {
  }

  /** `summarize`: a report exactly when no assertion fails, and then the one the slots come to. */
  method Summarize(cases: seq<Case>, records: map<string, Record>) returns (report: Option<Report>)
    ensures report.Some? <==> WellFormed(cases, records)
    ensures report.Some? <==> Reviewed(cases, records)
    ensures report.Some? ==>
              var slots := Slots(cases, records);
              && slots != [] && Total(ConfusionOf(slots).person) > 0 && Total(ConfusionOf(slots).nobody) > 0
              && report.value == ReportOf(slots)
    ensures report.Some? ==> Consistent(report.value)
  {
    hide Consistent, Reviewed, Acceptable, Gold, Slots, ConfusionOf, Samples, Latencies, Total, TotalLoss, CountOf,
        BinsOf, Ece, Brier, Nearest;
    WellFormedMeans(cases, records);
    if !Gold(cases, records) { return None; }
    var tally := TallyCases(cases, records);
    if tally.None? { return None; }
    var t := tally.value;
    ghost var slots := Slots(cases, records);
    GoldFillsRows(cases, records);
    SlotsAreFair(cases, records);
    ReportsAreConsistent(slots);
    var count, c := |cases| as real, t.confusion;
    var tp, fp, tn := c.person.person, c.nobody.person, c.nobody.nobody;
    var positives, negatives := Total(c.person) as real, Total(c.nobody) as real;
    var bins, ece, brier := [], None, None;
    if t.samples == [] {
      NoBins(10);
    } else {
      var found, error := Calibrate(t.samples);
      bins, ece, brier := found, Some(error), Some(Brier(t.samples));
    }
    report := Some(Report(
      |cases|, t.valid, t.errors, t.unrun, c,
      (tp + tn) as real / count, t.valid as real / count, Ratio(tp as real, (tp + fp) as real),
      tp as real / positives, tn as real / negatives, fp as real / negatives, t.errors as real / count,
      Calibration(ece, brier, t.loss / count, bins),
      Nearest(50, t.latencies), Nearest(95, t.latencies), Nearest(99, t.latencies)));
  }
}
