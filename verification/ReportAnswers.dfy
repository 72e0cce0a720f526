/** What the fields of a report say, told from the cases and the records alone. */
module ReportAnswers {
  import opened Options
  import opened Reals
  import opened PersonReport
  import opened PersonSummary

  datatype Outcome = SaysPerson | SaysNobody | Erred | NotRun

  /** No record, an error, or a reply that says that somebody is there from one half on. */
  function OutcomeOf(c: Case, records: map<string, Record>): Outcome {
    if c.id !in records then NotRun
    else if records[c.id].status.Failed? then Erred
    else if records[c.id].score >= 0.5 then SaysPerson else SaysNobody
  }

  predicate Replied(c: Case, records: map<string, Record>) {
    c.id in records && !records[c.id].status.Failed?
  }

  ghost predicate Sound(cases: seq<Case>, records: map<string, Record>) {
    forall c <- cases :: c.id in records ==> Acceptable(c, records[c.id])
  }

  // ---- Numbers of cases ----

  const LABELS := {Person, Nobody}
  const REPLIES := {SaysPerson, SaysNobody}
  const OUTCOMES := {SaysPerson, SaysNobody, Erred, NotRun}

  /** The cases of these labels that came to these outcomes. */
  function Having(cases: seq<Case>, records: map<string, Record>, labels: set<Label>, outcomes: set<Outcome>): set<nat>
  {
    set i: nat | i < |cases| && cases[i].expected in labels && OutcomeOf(cases[i], records) in outcomes
  }

  function Number(cases: seq<Case>, records: map<string, Record>, labels: set<Label>, outcomes: set<Outcome>): nat {
    |Having(cases, records, labels, outcomes)|
  }

  lemma NumberMore(cases: seq<Case>, records: map<string, Record>, c: Case, labels: set<Label>, outcomes: set<Outcome>)
    ensures Number(cases + [c], records, labels, outcomes)
         == Number(cases, records, labels, outcomes)
            + if c.expected in labels && OutcomeOf(c, records) in outcomes then 1 else 0
    ensures Number([], records, labels, outcomes) == 0
  {
    hide OutcomeOf;
    var n: nat := |cases|;
    var last: set<nat> := if c.expected in labels && OutcomeOf(c, records) in outcomes then {n} else {};
    assert Having(cases + [c], records, labels, outcomes) == Having(cases, records, labels, outcomes) + last;
    assert Having([], records, labels, outcomes) == {};
  }

  function InRow(row: Row, outcomes: set<Outcome>): nat {
    (if SaysPerson in outcomes then row.person else 0) + (if SaysNobody in outcomes then row.nobody else 0)
    + (if Erred in outcomes then row.error else 0) + if NotRun in outcomes then row.unrun else 0
  }

  function InCells(c: Confusion, labels: set<Label>, outcomes: set<Outcome>): nat {
    (if Person in labels then InRow(c.person, outcomes) else 0)
    + if Nobody in labels then InRow(c.nobody, outcomes) else 0
  }

  lemma MarkedCell(row: Row, c: Case, records: map<string, Record>, outcomes: set<Outcome>)
    requires c.id in records ==> Acceptable(c, records[c.id])
    ensures InRow(Marked(row, SlotOf(c, records)), outcomes)
         == InRow(row, outcomes) + if OutcomeOf(c, records) in outcomes then 1 else 0
  {
  }

  lemma SlotsMore(cases: seq<Case>, records: map<string, Record>)
    requires cases != [] && Sound(cases, records)
    ensures var init, c := cases[..|cases| - 1], cases[|cases| - 1];
            && Sound(init, records) && (c.id in records ==> Acceptable(c, records[c.id]))
            && Slots(cases, records)[..|cases| - 1] == Slots(init, records)
            && Slots(cases, records)[|cases| - 1] == SlotOf(c, records)
            && cases == init + [c]
  {
    hide Acceptable, SlotOf;
  }

  lemma LabelOf(c: Case, records: map<string, Record>)
    requires c.id in records ==> Acceptable(c, records[c.id])
    ensures SlotOf(c, records).expected == c.expected
  {
  }

  lemma EmptyCells(outcomes: set<Outcome>)
    ensures InRow(EMPTY.person, outcomes) == 0 == InRow(EMPTY.nobody, outcomes)
  {
  }

  lemma NoSlots(records: map<string, Record>)
    ensures Sound([], records) && Slots([], records) == []
  {
  }

  lemma {:induction false} CellsMean(cases: seq<Case>, records: map<string, Record>, labels: set<Label>,
      outcomes: set<Outcome>)
    requires Sound(cases, records)
    ensures InCells(ConfusionOf(Slots(cases, records)), labels, outcomes) == Number(cases, records, labels, outcomes)
  {
    hide Acceptable, OutcomeOf, Number, Having, Marked, InRow, SlotOf, Slots;
    if cases == [] {
      NumberMore([], records, Case("", Person, ""), labels, outcomes);
      EmptyCells(outcomes);
      assert Slots(cases, records) == [] by { NoSlots(records); }
    } else {
      var init, c := cases[..|cases| - 1], cases[|cases| - 1];
      SlotsMore(cases, records);
      CellsMean(init, records, labels, outcomes);
      NumberMore(init, records, c, labels, outcomes);
      MarkedCell(ConfusionOf(Slots(init, records)).person, c, records, outcomes);
      MarkedCell(ConfusionOf(Slots(init, records)).nobody, c, records, outcomes);
      LabelOf(c, records);
    }
  }

  // ---- Sums over cases ----

  datatype Measure = Losses | Squares | Scores(bin: nat) | Truths(bin: nat) | Members(bin: nat)

  predicate InTenth(score: real, k: nat) {
    k as real / 10.0 <= score && (k == 9 || score < (k + 1) as real / 10.0)
  }

  function Deviation(c: Case, score: real): real {
    if c.expected == Person then 1.0 - score else score
  }

  function Weight(m: Measure, c: Case, records: map<string, Record>): real {
    if !Replied(c, records) then if m.Losses? then 1.0 else 0.0
    else
      var score := records[c.id].score;
      match m
      case Losses => Deviation(c, score) * Deviation(c, score)
      case Squares => Deviation(c, score) * Deviation(c, score)
      case Scores(k) => if InTenth(score, k) then score else 0.0
      case Truths(k) => if InTenth(score, k) && c.expected == Person then 1.0 else 0.0
      case Members(k) => if InTenth(score, k) then 1.0 else 0.0
  }

  function Sum(m: Measure, cases: seq<Case>, records: map<string, Record>): real {
    if cases == [] then 0.0 else Weight(m, cases[0], records) + Sum(m, cases[1..], records)
  }

  lemma {:induction false} SumMore(m: Measure, cases: seq<Case>, c: Case, records: map<string, Record>)
    ensures Sum(m, cases + [c], records) == Sum(m, cases, records) + Weight(m, c, records)
  {
    hide Weight;
    if cases == [] {
      assert [c][1..] == [];
    } else {
      SumMore(m, cases[1..], c, records);
      assert (cases + [c])[1..] == cases[1..] + [c];
    }
  }

  lemma LossOf(c: Case, records: map<string, Record>)
    requires c.id in records ==> Acceptable(c, records[c.id])
    ensures Loss(SlotOf(c, records)) == Weight(Losses, c, records)
  {
  }

  lemma {:induction false} LossMeans(cases: seq<Case>, records: map<string, Record>)
    requires Sound(cases, records)
    ensures TotalLoss(Slots(cases, records)) == Sum(Losses, cases, records)
  {
    hide Acceptable, Loss, Weight, SlotOf, Slots;
    if cases == [] {
      assert Slots(cases, records) == [] by { NoSlots(records); }
    } else {
      var init, c := cases[..|cases| - 1], cases[|cases| - 1];
      SlotsMore(cases, records);
      LossMeans(init, records);
      SumMore(Losses, init, c, records);
      LossOf(c, records);
    }
  }

  /** What a case adds to the samples. */
  lemma SampleOf(c: Case, records: map<string, Record>, slots: seq<Slot>)
    requires c.id in records ==> Acceptable(c, records[c.id])
    ensures Samples(slots + [SlotOf(c, records)])
         == Samples(slots) + if Replied(c, records)
                             then [Sample(records[c.id].score, if c.expected == Person then 1 else 0)] else []
  {
    assert (slots + [SlotOf(c, records)])[..|slots|] == slots;
  }

  lemma SquareOf(c: Case, records: map<string, Record>)
    requires Replied(c, records)
    ensures var miss := Miss(Sample(records[c.id].score, if c.expected == Person then 1 else 0));
            miss * miss == Weight(Squares, c, records)
  {
  }

  lemma Unweighed(m: Measure, c: Case, records: map<string, Record>)
    requires !Replied(c, records) && !m.Losses?
    ensures Weight(m, c, records) == 0.0
  {
  }

  lemma NoSamples(records: map<string, Record>)
    ensures Sound([], records) && Samples(Slots([], records)) == []
  {
  }

  lemma {:induction false} SquaresMean(cases: seq<Case>, records: map<string, Record>)
    requires Sound(cases, records)
    ensures SumOfSquares(Samples(Slots(cases, records))) == Sum(Squares, cases, records)
  {
    hide Acceptable, Weight, SlotOf, Slots, Samples, Miss;
    if cases == [] {
      NoSamples(records);
    } else {
      var init, c := cases[..|cases| - 1], cases[|cases| - 1];
      SlotsMore(cases, records);
      assert Slots(cases, records) == Slots(init, records) + [SlotOf(c, records)];
      SquaresMean(init, records);
      SumMore(Squares, init, c, records);
      SampleOf(c, records, Slots(init, records));
      var samples := Samples(Slots(init, records));
      if Replied(c, records) {
        SquareOf(c, records);
        SquaresOfMore(samples, Sample(records[c.id].score, if c.expected == Person then 1 else 0));
      } else {
        Unweighed(Squares, c, records);
        assert samples + [] == samples;
      }
    }
  }

  // ---- Bins ----

  lemma TenthIs(score: real, k: nat)
    requires 0.0 <= score <= 1.0 && k < 10
    ensures BinOf(score) == k <==> InTenth(score, k)
  {
    var tenth := (score * 10.0).Floor;
    assert k as real / 10.0 <= score <==> k as real <= score * 10.0;
    assert score < (k + 1) as real / 10.0 <==> score * 10.0 < (k + 1) as real;
    assert tenth >= k <==> score * 10.0 >= k as real;
    assert tenth < k + 1 <==> score * 10.0 < (k + 1) as real;
  }

  /** What a case adds to a group of samples. */
  lemma AddedToGroup(group: seq<Sample>, s: Sample)
    ensures SumOfScores(group + [s]) == SumOfScores(group) + s.score
    ensures SumOfTruths(group + [s]) == SumOfTruths(group) + s.truth
  {
    assert (group + [s])[..|group|] == group;
  }

  lemma GroupMore(samples: seq<Sample>, s: Sample, k: nat)
    ensures Group(samples + [s], k) == Group(samples, k) + if BinOf(s.score) == k then [s] else []
  {
    hide BinOf;
    assert (samples + [s])[..|samples|] == samples;
  }

  /** The sums over a group. */
  predicate Measured(cases: seq<Case>, records: map<string, Record>, k: nat, group: seq<Sample>) {
    && |group| as real == Sum(Members(k), cases, records)
    && SumOfScores(group) == Sum(Scores(k), cases, records)
    && SumOfTruths(group) as real == Sum(Truths(k), cases, records)
  }

  lemma MeasuredMore(cases: seq<Case>, records: map<string, Record>, k: nat, group: seq<Sample>, c: Case)
    requires k < 10 && Measured(cases, records, k, group) && (c.id in records ==> Acceptable(c, records[c.id]))
    ensures Measured(cases + [c], records, k,
                     group + if Replied(c, records) && InTenth(records[c.id].score, k)
                             then [Sample(records[c.id].score, if c.expected == Person then 1 else 0)] else [])
  {
    hide Sum, SumOfScores, SumOfTruths, InTenth, Acceptable;
    SumMore(Members(k), cases, c, records);
    SumMore(Scores(k), cases, c, records);
    SumMore(Truths(k), cases, c, records);
    if Replied(c, records) && InTenth(records[c.id].score, k) {
      AddedToGroup(group, Sample(records[c.id].score, if c.expected == Person then 1 else 0));
    } else {
      assert group + [] == group;
    }
  }

  lemma NothingMeasured(records: map<string, Record>, k: nat)
    ensures Measured([], records, k, Group([], k))
  {
  }

  lemma ScoreIsFair(c: Case, r: Record)
    requires Acceptable(c, r) && !r.status.Failed?
    ensures 0.0 <= r.score <= 1.0
  {
  }

  lemma {:induction false} GroupMeans(cases: seq<Case>, records: map<string, Record>, k: nat)
    requires Sound(cases, records) && k < 10
    ensures Measured(cases, records, k, Group(Samples(Slots(cases, records)), k))
  {
    hide Acceptable, SlotOf, Slots, Samples, Measured, Group, BinOf, InTenth;
    if cases == [] {
      NoSamples(records);
      NothingMeasured(records, k);
    } else {
      var init, c := cases[..|cases| - 1], cases[|cases| - 1];
      SlotsMore(cases, records);
      assert Slots(cases, records) == Slots(init, records) + [SlotOf(c, records)];
      GroupMeans(init, records, k);
      var samples := Samples(Slots(init, records));
      SampleOf(c, records, Slots(init, records));
      MeasuredMore(init, records, k, Group(samples, k), c);
      if Replied(c, records) {
        ScoreIsFair(c, records[c.id]);
        TenthIs(records[c.id].score, k);
        GroupMore(samples, Sample(records[c.id].score, if c.expected == Person then 1 else 0), k);
      } else {
        assert samples + [] == samples;
        assert Group(samples, k) + [] == Group(samples, k);
      }
    }
  }

  /** A bin tells how many replies scored in its tenth, their mean score, and how many of them had somebody. */
  predicate Tells(cases: seq<Case>, records: map<string, Record>, bin: Bin) {
    && bin.index < 10 && bin.count > 0
    && bin.count as real == Sum(Members(bin.index), cases, records)
    && bin.mean * bin.count as real == Sum(Scores(bin.index), cases, records)
    && bin.observed * bin.count as real == Sum(Truths(bin.index), cases, records)
  }

  /** The bins in order, each tenth with a reply in it once. */
  ghost predicate Lists(cases: seq<Case>, records: map<string, Record>, bins: seq<Bin>, upTo: nat) {
    && (forall i :: 0 <= i < |bins| ==> Tells(cases, records, bins[i]) && bins[i].index < upTo)
    && (forall i, j :: 0 <= i < j < |bins| ==> bins[i].index < bins[j].index)
    && (forall k: nat :: k < upTo && Sum(Members(k), cases, records) > 0.0
          ==> exists i :: 0 <= i < |bins| && bins[i].index == k)
  }

  /** How far the bins' means are from what was observed, each as often as it has members. */
  function Gaps(bins: seq<Bin>): real {
    if bins == [] then 0.0 else bins[0].count as real * Abs(bins[0].mean - bins[0].observed) + Gaps(bins[1..])
  }

  lemma {:induction false} GapsMore(bins: seq<Bin>, bin: Bin)
    ensures Gaps(bins + [bin]) == Gaps(bins) + bin.count as real * Abs(bin.mean - bin.observed)
  {
    hide Abs;
    if bins == [] {
      assert [bin][1..] == [];
    } else {
      GapsMore(bins[1..], bin);
      assert (bins + [bin])[1..] == bins[1..] + [bin];
    }
  }

  lemma BinTells(cases: seq<Case>, records: map<string, Record>, k: nat, group: seq<Sample>)
    requires k < 10 && group != [] && Measured(cases, records, k, group)
    ensures Tells(cases, records, BinFor(k, group)) && BinFor(k, group).index == k
    ensures var bin := BinFor(k, group); bin.count as real * Abs(bin.mean - bin.observed) == Abs(SumOfMisses(group))
  {
    hide Sum, SumOfScores, SumOfTruths, SumOfMisses, Abs;
    BinShare(group, 1.0);
    var n := |group| as real;
    assert SumOfScores(group) / n * n == SumOfScores(group);
    assert SumOfTruths(group) as real / n * n == SumOfTruths(group) as real;
  }

  lemma NoMembers(cases: seq<Case>, records: map<string, Record>, k: nat, group: seq<Sample>)
    requires Measured(cases, records, k, group) && group == []
    ensures Sum(Members(k), cases, records) == 0.0 && Abs(SumOfMisses(group)) == 0.0
  {
  }

  lemma NothingListed(cases: seq<Case>, records: map<string, Record>)
    ensures Lists(cases, records, [], 0)
  {
  }

  lemma ListsOn(cases: seq<Case>, records: map<string, Record>, bins: seq<Bin>, k: nat)
    requires Lists(cases, records, bins, k) && Sum(Members(k), cases, records) == 0.0
    ensures Lists(cases, records, bins, k + 1)
  {
    hide Tells, Sum;
  }

  lemma ListsMore(cases: seq<Case>, records: map<string, Record>, bins: seq<Bin>, bin: Bin, k: nat)
    requires Lists(cases, records, bins, k) && Tells(cases, records, bin) && bin.index == k
    ensures Lists(cases, records, bins + [bin], k + 1)
  {
    hide Tells, Sum;
    var all := bins + [bin];
    assert all[|bins|].index == k;
    forall j: nat | j < k + 1 && Sum(Members(j), cases, records) > 0.0
      ensures exists i :: 0 <= i < |all| && all[i].index == j
    {
      if j < k {
        var i :| 0 <= i < |bins| && bins[i].index == j;
        assert all[i].index == j;
      }
    }
  }

  lemma {:induction false} BinsMean(cases: seq<Case>, records: map<string, Record>, n: nat)
    requires Sound(cases, records) && n <= 10
    ensures var samples := Samples(Slots(cases, records));
            && Lists(cases, records, BinsOf(samples, n), n) && Gaps(BinsOf(samples, n)) == BinDistances(samples, n)
  {
    hide Acceptable, Slots, Samples, Measured, Group, Tells, BinFor, SumOfMisses, Sum, Abs, Lists;
    if n == 0 {
      NothingListed(cases, records);
    } else {
      BinsMean(cases, records, n - 1);
      var samples := Samples(Slots(cases, records));
      var group, bins := Group(samples, n - 1), BinsOf(samples, n - 1);
      GroupMeans(cases, records, n - 1);
      if group == [] {
        NoMembers(cases, records, n - 1, group);
        ListsOn(cases, records, bins, n - 1);
        assert BinsOf(samples, n) == bins;
      } else {
        BinTells(cases, records, n - 1, group);
        GapsMore(bins, BinFor(n - 1, group));
        ListsMore(cases, records, bins, BinFor(n - 1, group), n - 1);
      }
    }
  }

  // ---- Latencies ----

  predicate IsQuick(c: Case, records: map<string, Record>, ms: int) {
    c.id in records && records[c.id].ms <= ms
  }

  /** The cases that ran and took no longer than this. */
  function Quick(cases: seq<Case>, records: map<string, Record>, ms: int): set<nat> {
    set i: nat | i < |cases| && IsQuick(cases[i], records, ms)
  }

  function Ran(cases: seq<Case>, records: map<string, Record>): set<nat> {
    set i: nat | i < |cases| && cases[i].id in records
  }

  lemma QuickMore(cases: seq<Case>, records: map<string, Record>, c: Case, ms: int)
    ensures |Quick(cases + [c], records, ms)| == |Quick(cases, records, ms)| + if IsQuick(c, records, ms) then 1 else 0
  {
    hide IsQuick;
    var n: nat := |cases|;
    var last: set<nat> := if IsQuick(c, records, ms) then {n} else {};
    assert Quick(cases + [c], records, ms) == Quick(cases, records, ms) + last;
  }

  lemma RanMore(cases: seq<Case>, records: map<string, Record>, c: Case)
    ensures |Ran(cases + [c], records)| == |Ran(cases, records)| + if c.id in records then 1 else 0
  {
    var n: nat := |cases|;
    var last: set<nat> := if c.id in records then {n} else {};
    assert Ran(cases + [c], records) == Ran(cases, records) + last;
  }

  lemma LatencyOf(c: Case, records: map<string, Record>, slots: seq<Slot>)
    requires c.id in records ==> Acceptable(c, records[c.id])
    ensures c.id in records ==> records[c.id].ms >= 0
    ensures Latencies(slots + [SlotOf(c, records)])
         == Latencies(slots) + if c.id in records then [records[c.id].ms] else []
  {
    assert (slots + [SlotOf(c, records)])[..|slots|] == slots;
  }

  lemma NothingQuick(records: map<string, Record>, v: nat)
    ensures Sound([], records) && Latencies(Slots([], records)) == []
    ensures Quick([], records, v) == {} == Quick([], records, v - 1) && Ran([], records) == {}
  {
  }

  lemma {:induction false} LatenciesMean(cases: seq<Case>, records: map<string, Record>, v: nat)
    requires Sound(cases, records)
    ensures var ms := Latencies(Slots(cases, records));
            && AtMost(ms, v) == |Quick(cases, records, v)| && Below(ms, v) == |Quick(cases, records, v - 1)|
            && |ms| == |Ran(cases, records)|
            && (v in ms <==> exists c <- cases :: c.id in records && records[c.id].ms == v)
  {
    hide Acceptable, SlotOf, Slots, Latencies, Quick, Ran;
    if cases == [] {
      NothingQuick(records, v);
    } else {
      var init, c := cases[..|cases| - 1], cases[|cases| - 1];
      SlotsMore(cases, records);
      assert Slots(cases, records) == Slots(init, records) + [SlotOf(c, records)];
      LatenciesMean(init, records, v);
      LatencyOf(c, records, Slots(init, records));
      QuickMore(init, records, c, v);
      QuickMore(init, records, c, v - 1);
      RanMore(init, records, c);
      var ms := Latencies(Slots(init, records));
      if c.id in records {
        CountsOfMore(ms, records[c.id].ms, v);
      } else {
        assert ms + [] == ms;
      }
      assert forall d :: d in cases <==> d in init || d == c;
    }
  }

  /** The latency of a case that ran, such that this many percent were no slower and fewer were faster. */
  ghost predicate PercentileOf(cases: seq<Case>, records: map<string, Record>, percent: nat, v: Option<nat>) {
    var n := |Ran(cases, records)|;
    && (v.None? <==> n == 0)
    && (v.Some? ==>
          && (exists c <- cases :: c.id in records && records[c.id].ms == v.value)
          && 100 * |Quick(cases, records, v.value)| >= percent * n
          && 100 * |Quick(cases, records, v.value - 1)| < percent * n)
  }

  lemma PercentileMeans(cases: seq<Case>, records: map<string, Record>, percent: nat)
    requires Sound(cases, records) && 1 <= percent <= 100
    ensures PercentileOf(cases, records, percent, Nearest(percent, Latencies(Slots(cases, records))))
  {
    hide Acceptable, Slots, Latencies, Quick, Ran, AtMost, Below;
    var ms := Latencies(Slots(cases, records));
    LatenciesMean(cases, records, 0);
    if ms != [] {
      NearestRank(percent, ms);
      LatenciesMean(cases, records, Nearest(percent, ms).value);
    }
    hide Nearest;
    NearestExists(ms);
  }

  // ---- The report ----

  /** The counts, and the eight cells by label and outcome. */
  predicate CountsTell(cases: seq<Case>, records: map<string, Record>, r: Report) {
    && r.planned == |cases|
    && r.valid == Number(cases, records, LABELS, REPLIES)
    && r.errors == Number(cases, records, LABELS, {Erred})
    && r.unrun == Number(cases, records, LABELS, {NotRun})
    && r.confusion.person == Row(Number(cases, records, {Person}, {SaysPerson}),
                                 Number(cases, records, {Person}, {SaysNobody}),
                                 Number(cases, records, {Person}, {Erred}), Number(cases, records, {Person}, {NotRun}))
    && r.confusion.nobody == Row(Number(cases, records, {Nobody}, {SaysPerson}),
                                 Number(cases, records, {Nobody}, {SaysNobody}),
                                 Number(cases, records, {Nobody}, {Erred}), Number(cases, records, {Nobody}, {NotRun}))
  }

  /** A fraction, told by what it makes of its divisor. */
  predicate Makes(rate: real, whole: nat, part: real) {
    whole > 0 && rate * whole as real == part
  }

  predicate RatesTell(cases: seq<Case>, records: map<string, Record>, r: Report) {
    var hits := Number(cases, records, {Person}, {SaysPerson});
    var alarms := Number(cases, records, {Nobody}, {SaysPerson});
    var rejections := Number(cases, records, {Nobody}, {SaysNobody});
    var positives, negatives := Number(cases, records, {Person}, OUTCOMES), Number(cases, records, {Nobody}, OUTCOMES);
    && Makes(r.accuracy, |cases|, (hits + rejections) as real)
    && Makes(r.coverage, |cases|, Number(cases, records, LABELS, REPLIES) as real)
    && Makes(r.errorFraction, |cases|, Number(cases, records, LABELS, {Erred}) as real)
    && (r.precision.None? <==> hits + alarms == 0)
    && (r.precision.Some? ==> Makes(r.precision.value, hits + alarms, hits as real))
    && Makes(r.personRecall, positives, hits as real)
    && Makes(r.nobodyRecall, negatives, rejections as real)
    && Makes(r.falsePositives, negatives, alarms as real)
  }

  /** The two scores, the calibration error and the bins. */
  ghost predicate CalibrationTells(cases: seq<Case>, records: map<string, Record>, r: Report) {
    var k, n := r.calibration, Number(cases, records, LABELS, REPLIES);
    && Makes(k.brierAll, |cases|, Sum(Losses, cases, records))
    && (k.brier.None? <==> n == 0) && (k.ece.None? <==> n == 0)
    && (k.brier.Some? ==> Makes(k.brier.value, n, Sum(Squares, cases, records)))
    && (k.ece.Some? ==> Makes(k.ece.value, n, Gaps(k.bins)))
    && Lists(cases, records, k.bins, 10)
  }

  ghost predicate PercentilesTell(cases: seq<Case>, records: map<string, Record>, r: Report) {
    && PercentileOf(cases, records, 50, r.p50) && PercentileOf(cases, records, 95, r.p95)
    && PercentileOf(cases, records, 99, r.p99)
  }

  lemma CellIs(c: Confusion)
    ensures InCells(c, {Person}, {SaysPerson}) == c.person.person
    ensures InCells(c, {Person}, {SaysNobody}) == c.person.nobody
    ensures InCells(c, {Person}, {Erred}) == c.person.error && InCells(c, {Person}, {NotRun}) == c.person.unrun
    ensures InCells(c, {Nobody}, {SaysPerson}) == c.nobody.person
    ensures InCells(c, {Nobody}, {SaysNobody}) == c.nobody.nobody
    ensures InCells(c, {Nobody}, {Erred}) == c.nobody.error && InCells(c, {Nobody}, {NotRun}) == c.nobody.unrun
    ensures InCells(c, {Person}, OUTCOMES) == Total(c.person) && InCells(c, {Nobody}, OUTCOMES) == Total(c.nobody)
    ensures InCells(c, LABELS, REPLIES) == c.person.person + c.person.nobody + c.nobody.person + c.nobody.nobody
    ensures InCells(c, LABELS, {Erred}) == c.person.error + c.nobody.error
    ensures InCells(c, LABELS, {NotRun}) == c.person.unrun + c.nobody.unrun
  {
  }

  /** The numbers of cases behind the cells. */
  predicate Fills(cases: seq<Case>, records: map<string, Record>, c: Confusion) {
    && c.person == Row(Number(cases, records, {Person}, {SaysPerson}), Number(cases, records, {Person}, {SaysNobody}),
                       Number(cases, records, {Person}, {Erred}), Number(cases, records, {Person}, {NotRun}))
    && c.nobody == Row(Number(cases, records, {Nobody}, {SaysPerson}), Number(cases, records, {Nobody}, {SaysNobody}),
                       Number(cases, records, {Nobody}, {Erred}), Number(cases, records, {Nobody}, {NotRun}))
    && Total(c.person) == Number(cases, records, {Person}, OUTCOMES)
    && Total(c.nobody) == Number(cases, records, {Nobody}, OUTCOMES)
  }

  lemma CellsFill(cases: seq<Case>, records: map<string, Record>)
    requires Sound(cases, records)
    ensures Fills(cases, records, ConfusionOf(Slots(cases, records)))
  {
    hide Acceptable, ConfusionOf, Number, InCells, Total;
    CellIs(ConfusionOf(Slots(cases, records)));
    CellsMean(cases, records, {Person}, {SaysPerson});
    CellsMean(cases, records, {Person}, {SaysNobody});
    CellsMean(cases, records, {Person}, {Erred});
    CellsMean(cases, records, {Person}, {NotRun});
    CellsMean(cases, records, {Person}, OUTCOMES);
    CellsMean(cases, records, {Nobody}, {SaysPerson});
    CellsMean(cases, records, {Nobody}, {SaysNobody});
    CellsMean(cases, records, {Nobody}, {Erred});
    CellsMean(cases, records, {Nobody}, {NotRun});
    CellsMean(cases, records, {Nobody}, OUTCOMES);
  }

  lemma ColumnsFill(cases: seq<Case>, records: map<string, Record>)
    requires Sound(cases, records)
    ensures var slots := Slots(cases, records);
            && |Samples(slots)| == Number(cases, records, LABELS, REPLIES)
            && CountOf(slots, IsError) == Number(cases, records, LABELS, {Erred})
            && CountOf(slots, IsUnrun) == Number(cases, records, LABELS, {NotRun})
  {
    hide Acceptable, ConfusionOf, Number, InCells, Total, CountOf, Samples;
    CellIs(ConfusionOf(Slots(cases, records)));
    ConfusionColumns(Slots(cases, records));
    CellsMean(cases, records, LABELS, REPLIES);
    CellsMean(cases, records, LABELS, {Erred});
    CellsMean(cases, records, LABELS, {NotRun});
  }

  predicate Fillable(slots: seq<Slot>) {
    slots != [] && Total(ConfusionOf(slots).person) > 0 && Total(ConfusionOf(slots).nobody) > 0
  }

  lemma CountsMean(cases: seq<Case>, records: map<string, Record>)
    requires WellFormed(cases, records) && Fillable(Slots(cases, records))
    ensures CountsTell(cases, records, ReportOf(Slots(cases, records)))
  {
    CellsFill(cases, records);
    ColumnsFill(cases, records);
    hide Acceptable, Slots, ConfusionOf, Number, CountOf, Samples, Latencies, CalibrationOf, Nearest, Total, Gold;
  }

  lemma QuotientMakes(part: real, whole: nat)
    requires whole > 0
    ensures Makes(part / whole as real, whole, part)
  {
  }

  /** The fractions of a report, by the cells of its confusion. */
  lemma RateFields(slots: seq<Slot>)
    requires Fillable(slots)
    ensures var r := ReportOf(slots); var c := r.confusion;
            && r.confusion == ConfusionOf(slots)
            && Makes(r.accuracy, |slots|, (c.person.person + c.nobody.nobody) as real)
            && Makes(r.coverage, |slots|, r.valid as real) && Makes(r.errorFraction, |slots|, r.errors as real)
            && (r.precision.None? <==> c.person.person + c.nobody.person == 0)
            && (r.precision.Some? ==>
                  Makes(r.precision.value, c.person.person + c.nobody.person, c.person.person as real))
            && Makes(r.personRecall, Total(c.person), c.person.person as real)
            && Makes(r.nobodyRecall, Total(c.nobody), c.nobody.nobody as real)
            && Makes(r.falsePositives, Total(c.nobody), c.nobody.person as real)
  {
    hide ConfusionOf, CountOf, Samples, Latencies, CalibrationOf, Nearest, Total, Makes;
    var c := ConfusionOf(slots);
    QuotientMakes((c.person.person + c.nobody.nobody) as real, |slots|);
    QuotientMakes(|Samples(slots)| as real, |slots|);
    QuotientMakes(CountOf(slots, IsError) as real, |slots|);
    QuotientMakes(c.person.person as real, Total(c.person));
    QuotientMakes(c.nobody.nobody as real, Total(c.nobody));
    QuotientMakes(c.nobody.person as real, Total(c.nobody));
    if c.person.person + c.nobody.person > 0 {
      QuotientMakes(c.person.person as real, c.person.person + c.nobody.person);
    }
  }

  lemma RatesMean(cases: seq<Case>, records: map<string, Record>)
    requires WellFormed(cases, records) && Fillable(Slots(cases, records))
    requires CountsTell(cases, records, ReportOf(Slots(cases, records)))
    ensures RatesTell(cases, records, ReportOf(Slots(cases, records)))
  {
    RateFields(Slots(cases, records));
    CellsFill(cases, records);
    hide Acceptable, Slots, ConfusionOf, Number, Total, Gold, Makes, ReportOf;
  }

  lemma CalibrationFields(slots: seq<Slot>)
    requires slots != []
    ensures var k, samples := CalibrationOf(slots), Samples(slots);
            && Makes(k.brierAll, |slots|, TotalLoss(slots)) && k.bins == BinsOf(samples, 10)
            && (k.brier.None? <==> samples == []) && (k.ece.None? <==> samples == [])
            && (k.brier.Some? ==> Makes(k.brier.value, |samples|, SumOfSquares(samples)))
            && (k.ece.Some? ==> Makes(k.ece.value, |samples|, BinDistances(samples, 10)))
  {
    hide Samples, BinsOf, TotalLoss, SumOfSquares, BinDistances, Makes;
    var samples := Samples(slots);
    QuotientMakes(TotalLoss(slots), |slots|);
    if samples != [] {
      QuotientMakes(SumOfSquares(samples), |samples|);
      QuotientMakes(BinDistances(samples, 10), |samples|);
    }
  }

  lemma CalibrationMeans(cases: seq<Case>, records: map<string, Record>, r: Report)
    requires WellFormed(cases, records) && Slots(cases, records) != []
    requires r.calibration == CalibrationOf(Slots(cases, records))
    ensures CalibrationTells(cases, records, r)
  {
    hide Acceptable, Slots, Samples, Number, Sum, Gaps, BinsOf, Lists, TotalLoss, SumOfSquares, BinDistances, Gold,
        CalibrationOf, Makes, CountOf;
    CalibrationFields(Slots(cases, records));
    LossMeans(cases, records);
    SquaresMean(cases, records);
    BinsMean(cases, records, 10);
    ColumnsFill(cases, records);
  }

  lemma ReportFields(slots: seq<Slot>)
    requires Fillable(slots)
    ensures var r, ms := ReportOf(slots), Latencies(slots);
            && r.calibration == CalibrationOf(slots) && r.valid == |Samples(slots)|
            && r.p50 == Nearest(50, ms) && r.p95 == Nearest(95, ms) && r.p99 == Nearest(99, ms)
  {
    hide CountOf, Samples, ConfusionOf, Latencies, Nearest, CalibrationOf, Total;
  }

  /** Every number of every report, without the computation that leads to it. */
  lemma ReportMeans(cases: seq<Case>, records: map<string, Record>)
    requires WellFormed(cases, records)
    ensures var slots := Slots(cases, records);
            && Fillable(slots)
            && var r := ReportOf(slots);
               && CountsTell(cases, records, r) && RatesTell(cases, records, r)
               && CalibrationTells(cases, records, r) && PercentilesTell(cases, records, r)
  {
    GoldFillsRows(cases, records);
    CountsMean(cases, records);
    var slots := Slots(cases, records);
    var r := ReportOf(slots);
    hide Acceptable, ReportOf, CountsTell, RatesTell, CalibrationTells, PercentileOf, Nearest, Latencies, Total,
        ConfusionOf, Slots, Gold;
    ReportFields(slots);
    RatesMean(cases, records);
    CalibrationMeans(cases, records, r);
    PercentileMeans(cases, records, 50);
    PercentileMeans(cases, records, 95);
    PercentileMeans(cases, records, 99);
  }
}
