/**
The metrics of the person benchmark over all planned cases, those without a valid reply included.

Scores are exact reals in [0, 1]; a failed assertion of the tool is the absence of a report.
*/
module PersonReport {
  import opened Options
  import opened Sequences
  import opened Reals

  datatype Label = Person | Nobody
  datatype Case = Case(id: string, expected: Label, digest: string)
  datatype Status = Failed | Valid | Unknown
  datatype Record = Record(digest: string, attempts: int, retries: int, ms: int, status: Status, score: real,
      predicted: Label)

  function Predicted(score: real): Label {
    if score >= 0.5 then Person else Nobody
  }

  predicate Acceptable(c: Case, r: Record) {
    && r.digest == c.digest && r.attempts == 1 && r.retries == 0 && r.ms >= 0 && !r.status.Unknown?
    && (r.status.Valid? ==> 0.0 <= r.score <= 1.0 && r.predicted == Predicted(r.score))
  }

  // ---- What the cases come to ----

  /** One planned case in the report: its label, and the reply if there was one. */
  datatype Slot = Unrun(expected: Label) | Error(expected: Label, ms: nat) | Scored(expected: Label, ms: nat,
      score: real)

  function SlotOf(c: Case, records: map<string, Record>): (slot: Slot)
    requires c.id in records ==> Acceptable(c, records[c.id])
    ensures slot.expected == c.expected && (slot.Scored? ==> 0.0 <= slot.score <= 1.0)
  {
    if c.id !in records then Unrun(c.expected)
    else
      var r := records[c.id];
      if r.status.Failed? then Error(c.expected, r.ms) else Scored(c.expected, r.ms, r.score)
  }

  function Slots(cases: seq<Case>, records: map<string, Record>): (slots: seq<Slot>)
    requires forall c <- cases :: c.id in records ==> Acceptable(c, records[c.id])
    ensures |slots| == |cases|
  {
    if cases == [] then []
    else
      assert forall c <- cases[..|cases| - 1] :: c in cases;
      Slots(cases[..|cases| - 1], records) + [SlotOf(cases[|cases| - 1], records)]
  }

  /** The reviewed cases: distinct, of both labels, and with records for no other case. */
  predicate Gold(cases: seq<Case>, records: map<string, Record>) {
    && (forall i, j :: 0 <= i < j < |cases| ==> cases[i].id != cases[j].id)
    && (exists c <- cases :: c.expected.Person?) && (exists c <- cases :: c.expected.Nobody?)
    && (forall id <- records :: exists c <- cases :: c.id == id)
  }

  predicate WellFormed(cases: seq<Case>, records: map<string, Record>) {
    Gold(cases, records) && forall c <- cases :: c.id in records ==> Acceptable(c, records[c.id])
  }

  // ---- Samples ----

  datatype Sample = Sample(score: real, truth: int)

  predicate Fair(s: Sample) {
    0.0 <= s.score <= 1.0 && 0 <= s.truth <= 1
  }

  function Truth(expected: Label): int {
    if expected.Person? then 1 else 0
  }

  function Samples(slots: seq<Slot>): (samples: seq<Sample>)
    ensures |samples| <= |slots|
  {
    if slots == [] then []
    else
      var last := slots[|slots| - 1];
      Samples(slots[..|slots| - 1]) + if last.Scored? then [Sample(last.score, Truth(last.expected))] else []
  }

  function Latencies(slots: seq<Slot>): (ms: seq<nat>)
  {
    if slots == [] then []
    else
      var last := slots[|slots| - 1];
      Latencies(slots[..|slots| - 1]) + if last.Unrun? then [] else [last.ms]
  }

  /** How far a score is from the truth. */
  function Miss(s: Sample): real {
    s.score - s.truth as real
  }

  function SumOfMisses(samples: seq<Sample>): real {
    if samples == [] then 0.0 else SumOfMisses(samples[..|samples| - 1]) + Miss(samples[|samples| - 1])
  }

  function SumOfDistances(samples: seq<Sample>): real {
    if samples == [] then 0.0 else SumOfDistances(samples[..|samples| - 1]) + Abs(Miss(samples[|samples| - 1]))
  }

  function SumOfSquares(samples: seq<Sample>): real {
    if samples == [] then 0.0
    else SumOfSquares(samples[..|samples| - 1]) + Miss(samples[|samples| - 1]) * Miss(samples[|samples| - 1])
  }

  // ---- Calibration bins ----

  /** The tenth of the unit interval that a score falls in; a certain score falls in the last. */
  function BinOf(score: real): (bin: int)
    ensures 0.0 <= score <= 1.0 ==> 0 <= bin < 10 && bin as real / 10.0 <= score <= (bin + 1) as real / 10.0
    ensures 0.0 <= score < 1.0 ==> score < (bin + 1) as real / 10.0
  {
    var tenth := (score * 10.0).Floor;
    if tenth < 9 then tenth else 9
  }

  function Group(samples: seq<Sample>, bin: int): (group: seq<Sample>)
    ensures |group| <= |samples|
    ensures forall s <- group :: s in samples && BinOf(s.score) == bin
  {
    if samples == [] then []
    else
      var last := samples[|samples| - 1];
      Group(samples[..|samples| - 1], bin) + if BinOf(last.score) == bin then [last] else []
  }

  function GroupSizes(samples: seq<Sample>, bins: nat): nat {
    if bins == 0 then 0 else GroupSizes(samples, bins - 1) + |Group(samples, bins - 1)|
  }

  lemma GroupSizeOfMore(samples: seq<Sample>, s: Sample, bin: int)
    ensures |Group(samples + [s], bin)| == |Group(samples, bin)| + if BinOf(s.score) == bin then 1 else 0
  {
    hide BinOf;
    assert (samples + [s])[..|samples|] == samples;
  }

  lemma {:induction false} GroupsOfMore(samples: seq<Sample>, s: Sample, bins: nat)
    ensures GroupSizes(samples + [s], bins) == GroupSizes(samples, bins) + if 0 <= BinOf(s.score) < bins then 1 else 0
  {
    hide BinOf, Group;
    if bins > 0 {
      GroupsOfMore(samples, s, bins - 1);
      GroupSizeOfMore(samples, s, bins - 1);
    }
  }

  lemma {:induction false} NoGroups(bins: nat)
    ensures GroupSizes([], bins) == 0
  {
    if bins > 0 {
      NoGroups(bins - 1);
    }
  }

  /** The ten bins take up every sample, and each once. */
  lemma {:induction false} BinsPartition(samples: seq<Sample>)
    requires forall s <- samples :: Fair(s)
    ensures GroupSizes(samples, 10) == |samples|
  {
    hide BinOf, GroupSizes;
    if samples == [] {
      NoGroups(10);
    } else {
      var init, last := samples[..|samples| - 1], samples[|samples| - 1];
      assert samples == init + [last];
      BinsPartition(init);
      assert last in samples;
      GroupsOfMore(init, last, 10);
    }
  }

  /** The sum over the first bins of how far each bin's scores are from its truths. */
  function BinDistances(samples: seq<Sample>, bins: nat): (sum: real)
    ensures sum >= 0.0
  {
    if bins == 0 then 0.0 else BinDistances(samples, bins - 1) + Abs(SumOfMisses(Group(samples, bins - 1)))
  }

  lemma GroupOfMore(samples: seq<Sample>, s: Sample, bin: int)
    ensures SumOfMisses(Group(samples + [s], bin)) == SumOfMisses(Group(samples, bin)) + if BinOf(s.score) == bin
        then Miss(s) else 0.0
  {
    hide BinOf;
    assert (samples + [s])[..|samples|] == samples;
    var group := Group(samples, bin);
    if BinOf(s.score) == bin {
      assert (group + [s])[..|group|] == group;
    } else {
      assert group + [] == group;
    }
  }

  lemma {:induction false} BinDistancesOfMore(samples: seq<Sample>, s: Sample, bins: nat)
    ensures BinDistances(samples + [s], bins) <= BinDistances(samples, bins) + if 0 <= BinOf(s.score) < bins
        then Abs(Miss(s)) else 0.0
  {
    hide BinOf, Group, SumOfMisses, Miss;
    if bins > 0 {
      BinDistancesOfMore(samples, s, bins - 1);
      GroupOfMore(samples, s, bins - 1);
    }
  }

  lemma {:induction false} NoBinDistances(bins: nat)
    ensures BinDistances([], bins) == 0.0
  {
    if bins > 0 {
      NoBinDistances(bins - 1);
      assert Group([], bins - 1) == [];
    }
  }

  lemma {:induction false} BinsBelowDistances(samples: seq<Sample>, bins: nat)
    ensures BinDistances(samples, bins) <= SumOfDistances(samples)
  {
    hide BinOf, BinDistances;
    if samples == [] {
      NoBinDistances(bins);
    } else {
      var init, last := samples[..|samples| - 1], samples[|samples| - 1];
      assert samples == init + [last];
      BinsBelowDistances(init, bins);
      BinDistancesOfMore(init, last, bins);
    }
  }

  // ---- Calibration error and Brier score ----

  /** Expected calibration error of the valid replies. */
  function Ece(samples: seq<Sample>): real
    requires samples != []
  {
    BinDistances(samples, 10) / |samples| as real
  }

  function Brier(samples: seq<Sample>): real
    requires samples != []
  {
    SumOfSquares(samples) / |samples| as real
  }

  lemma {:induction false} DistancesWithinCount(samples: seq<Sample>)
    requires forall s <- samples :: Fair(s)
    ensures 0.0 <= SumOfDistances(samples) <= |samples| as real
  {
    if samples != [] {
      var init := samples[..|samples| - 1];
      assert samples[|samples| - 1] in samples;
      assert forall s <- init :: s in samples;
      DistancesWithinCount(init);
    }
  }

  lemma SquareIsNotNegative(x: real)
    ensures x * x >= 0.0
  {
  }

  lemma Cancel(k: real, x: real, y: real)
    requires k > 0.0 && k * x <= k * y
    ensures x <= y
  {
    if x > y {
      assert false;
    }
  }

  /** `(S + a)^2 <= (n + 1)(Q + a^2)` where `S^2 <= n Q`. */
  lemma SquareStep(k: real, sum: real, squares: real, a: real)
    requires k > 0.0 && sum * sum <= k * squares
    ensures (sum + a) * (sum + a) <= (k + 1.0) * (squares + a * a)
  {
    var d := sum - k * a;
    SquareIsNotNegative(d);
    assert d * d == sum * sum - 2.0 * (sum * a) * k + k * (k * (a * a)) by {
      assert d * d == sum * sum - 2.0 * sum * (k * a) + (k * a) * (k * a);
      assert sum * (k * a) == (sum * a) * k;
      assert (k * a) * (k * a) == k * (k * (a * a));
    }
    var p, q := sum * a, a * a;
    assert k * (2.0 * p) <= k * (squares + k * q) by {
      assert k * (2.0 * p) == 2.0 * p * k;
      assert k * (squares + k * q) == k * squares + k * (k * q);
    }
    Cancel(k, 2.0 * p, squares + k * q);
    assert (sum + a) * (sum + a) == sum * sum + 2.0 * p + q;
    assert (k + 1.0) * (squares + q) == k * squares + k * q + squares + q;
  }

  lemma {:induction false} CauchySchwarz(samples: seq<Sample>)
    ensures SumOfSquares(samples) >= 0.0
    ensures SumOfDistances(samples) * SumOfDistances(samples) <= |samples| as real * SumOfSquares(samples)
  {
    if samples != [] {
      var init, last := samples[..|samples| - 1], samples[|samples| - 1];
      CauchySchwarz(init);
      var d := Miss(last);
      assert Abs(d) * Abs(d) == d * d;
      SquareIsNotNegative(d);
      if init != [] {
        SquareStep(|init| as real, SumOfDistances(init), SumOfSquares(init), Abs(d));
      }
    }
  }

  lemma QuotientsOfSquares(x: real, y: real, n: real)
    requires n > 0.0 && x * x <= n * y
    ensures (x / n) * (x / n) <= y / n
  {
    var u, v := x / n, y / n;
    assert x == u * n && y == v * n;
    assert (u * n) * (u * n) == n * (n * (u * u));
    assert n * (v * n) == n * (n * v);
    Cancel(n, n * (u * u), n * v);
    Cancel(n, u * u, v);
  }

  lemma SquaresAreMonotone(x: real, y: real)
    requires 0.0 <= x <= y
    ensures x * x <= y * y
  {
    assert x * x <= x * y;
    assert x * y <= y * y;
  }

  /** The calibration error is a fraction, and its square is at most the Brier score of the same replies. */
  lemma CalibrationWithinBrier(samples: seq<Sample>)
    requires samples != [] && forall s <- samples :: Fair(s)
    ensures 0.0 <= Ece(samples) <= 1.0
    ensures Ece(samples) * Ece(samples) <= Brier(samples)
  {
    hide BinDistances, SumOfDistances, SumOfSquares;
    var n := |samples| as real;
    var x := BinDistances(samples, 10);
    BinsBelowDistances(samples, 10);
    DistancesWithinCount(samples);
    QuotientWithin(x, n);
    CauchySchwarz(samples);
    SquaresAreMonotone(x, SumOfDistances(samples));
    QuotientsOfSquares(x, SumOfSquares(samples), n);
  }

  // ---- All slots ----

  function CountOf(slots: seq<Slot>, p: Slot -> bool): (n: nat)
    ensures n <= |slots|
  {
    if slots == [] then 0 else CountOf(slots[..|slots| - 1], p) + if p(slots[|slots| - 1]) then 1 else 0
  }

  /** What a slot costs: a missing or failed reply as much as a certain mistake. */
  function Loss(slot: Slot): real {
    if slot.Scored? then
      var miss := Miss(Sample(slot.score, Truth(slot.expected)));
      miss * miss
    else 1.0
  }

  function TotalLoss(slots: seq<Slot>): real {
    if slots == [] then 0.0 else TotalLoss(slots[..|slots| - 1]) + Loss(slots[|slots| - 1])
  }

  lemma SquaresOfMore(samples: seq<Sample>, s: Sample)
    ensures SumOfSquares(samples + [s]) == SumOfSquares(samples) + Miss(s) * Miss(s)
  {
    assert (samples + [s])[..|samples|] == samples;
  }

  lemma {:induction false} LossSplits(slots: seq<Slot>)
    ensures TotalLoss(slots) == SumOfSquares(Samples(slots)) + (|slots| - |Samples(slots)|) as real
  {
    if slots != [] {
      var init, last := slots[..|slots| - 1], slots[|slots| - 1];
      LossSplits(init);
      if last.Scored? {
        SquaresOfMore(Samples(init), Sample(last.score, Truth(last.expected)));
      } else {
        assert Samples(init) + [] == Samples(init);
      }
    }
  }

  lemma NoSquares()
    ensures SumOfSquares([]) == 0.0
  {
  }

  lemma Weighted(v: real, n: real, q: real)
    requires v > 0.0 && n > 0.0
    ensures v / n * (q / v) == q / n
  {
    var x, y := v / n, q / v;
    assert v == x * n && q == y * v;
    assert q == x * y * n;
  }

  lemma QuotientOfSum(x: real, y: real, n: real)
    requires n > 0.0
    ensures (x + y) / n == x / n + y / n
  {
  }

  /** Over all slots, the Brier score is the valid one weighted by coverage, and one for the rest. */
  lemma AllSlotBrier(slots: seq<Slot>)
    requires slots != []
    ensures var n, v := |slots| as real, |Samples(slots)|;
            TotalLoss(slots) / n == (if v == 0 then 0.0
                else v as real / n * Brier(Samples(slots))) + (|slots| - v) as real / n
  {
    hide SumOfSquares, TotalLoss, Samples;
    var n, v, q := |slots| as real, |Samples(slots)| as real, SumOfSquares(Samples(slots));
    LossSplits(slots);
    if Samples(slots) == [] {
      NoSquares();
    } else {
      Weighted(v, n, q);
      QuotientOfSum(q, n - v, n);
    }
  }

  lemma {:induction false} SamplesAreFair(slots: seq<Slot>)
    requires forall slot <- slots :: slot.Scored? ==> 0.0 <= slot.score <= 1.0
    ensures forall s <- Samples(slots) :: Fair(s)
  {
    if slots != [] {
      var init, last := slots[..|slots| - 1], slots[|slots| - 1];
      assert slots == init + [last];
      assert last in slots;
      SamplesAreFair(init);
    }
  }

  // ---- Confusion ----

  datatype Row = Row(person: nat, nobody: nat, error: nat, unrun: nat)

  function Total(row: Row): nat {
    row.person + row.nobody + row.error + row.unrun
  }

  /** Rows by what was expected, columns by what was predicted. */
  datatype Confusion = Confusion(person: Row, nobody: Row)

  const EMPTY := Confusion(Row(0, 0, 0, 0), Row(0, 0, 0, 0))

  function Marked(row: Row, slot: Slot): Row {
    match slot
    case Unrun(_) => row.(unrun := row.unrun + 1)
    case Error(_, _) => row.(error := row.error + 1)
    case Scored(_, _, score) =>
      if Predicted(score).Person? then row.(person := row.person + 1) else row.(nobody := row.nobody + 1)
  }

  function Counted(c: Confusion, slot: Slot): Confusion {
    if slot.expected.Person? then c.(person := Marked(c.person, slot)) else c.(nobody := Marked(c.nobody, slot))
  }

  function ConfusionOf(slots: seq<Slot>): Confusion {
    if slots == [] then EMPTY else Counted(ConfusionOf(slots[..|slots| - 1]), slots[|slots| - 1])
  }

  predicate ExpectsPerson(slot: Slot) { slot.expected.Person? }
  predicate IsUnrun(slot: Slot) { slot.Unrun? }
  predicate IsError(slot: Slot) { slot.Error? }
  predicate IsHit(slot: Slot) { slot.Scored? && slot.expected.Person? && slot.score >= 0.5 }
  predicate IsFalseAlarm(slot: Slot) { slot.Scored? && slot.expected.Nobody? && slot.score >= 0.5 }
  predicate IsRejection(slot: Slot) { slot.Scored? && slot.expected.Nobody? && slot.score < 0.5 }

  lemma EmptyTotal()
    ensures Total(EMPTY.person) == 0 == Total(EMPTY.nobody)
  {
  }

  lemma MarkedTotal(row: Row, slot: Slot)
    ensures Total(Marked(row, slot)) == Total(row) + 1
  {
  }

  /** Every planned case is in one cell; its row tells what was expected. */
  lemma {:induction false} ConfusionRows(slots: seq<Slot>)
    ensures var c := ConfusionOf(slots);
            && Total(c.person) == CountOf(slots, ExpectsPerson)
            && Total(c.person) + Total(c.nobody) == |slots|
  {
    hide Marked, Total;
    if slots == [] {
      EmptyTotal();
    } else {
      var init, last := slots[..|slots| - 1], slots[|slots| - 1];
      ConfusionRows(init);
      MarkedTotal(ConfusionOf(init).person, last);
      MarkedTotal(ConfusionOf(init).nobody, last);
    }
  }

  /** Its column tells what came of it. */
  lemma {:induction false} ConfusionColumns(slots: seq<Slot>)
    ensures var c := ConfusionOf(slots);
            && c.person.unrun + c.nobody.unrun == CountOf(slots, IsUnrun)
            && c.person.error + c.nobody.error == CountOf(slots, IsError)
            && c.person.person + c.person.nobody + c.nobody.person + c.nobody.nobody == |Samples(slots)|
  {
    if slots != [] {
      ConfusionColumns(slots[..|slots| - 1]);
    }
  }

  /** And the cells of the scored cases are the hits, the false alarms and the rejections. */
  lemma {:induction false} ConfusionCells(slots: seq<Slot>)
    ensures var c := ConfusionOf(slots);
            && c.person.person == CountOf(slots, IsHit)
            && c.nobody.person == CountOf(slots, IsFalseAlarm)
            && c.nobody.nobody == CountOf(slots, IsRejection)
  {
    if slots != [] {
      ConfusionCells(slots[..|slots| - 1]);
    }
  }

  // ---- Percentiles ----

  function Inserted(s: seq<nat>, x: nat): (r: seq<nat>)
    ensures |r| == |s| + 1
  {
    if s == [] || s[|s| - 1] <= x then s + [x] else Inserted(s[..|s| - 1], x) + [s[|s| - 1]]
  }

  function Sorted(s: seq<nat>): (r: seq<nat>)
    ensures |r| == |s|
  {
    if s == [] then [] else Inserted(Sorted(s[..|s| - 1]), s[|s| - 1])
  }

  function AtMost(s: seq<nat>, v: nat): nat {
    if s == [] then 0 else AtMost(s[..|s| - 1], v) + if s[|s| - 1] <= v then 1 else 0
  }

  function Below(s: seq<nat>, v: nat): nat {
    if s == [] then 0 else Below(s[..|s| - 1], v) + if s[|s| - 1] < v then 1 else 0
  }

  lemma CountsOfMore(s: seq<nat>, x: nat, v: nat)
    ensures AtMost(s + [x], v) == AtMost(s, v) + if x <= v then 1 else 0
    ensures Below(s + [x], v) == Below(s, v) + if x < v then 1 else 0
  {
    assert (s + [x])[..|s|] == s;
  }

  lemma {:induction false} InsertedCounts(s: seq<nat>, x: nat, v: nat)
    ensures AtMost(Inserted(s, x), v) == AtMost(s, v) + if x <= v then 1 else 0
    ensures Below(Inserted(s, x), v) == Below(s, v) + if x < v then 1 else 0
    ensures multiset(Inserted(s, x)) == multiset(s) + multiset{x}
  {
    if s == [] || s[|s| - 1] <= x {
      CountsOfMore(s, x, v);
    } else {
      var init, last := s[..|s| - 1], s[|s| - 1];
      assert s == init + [last];
      InsertedCounts(init, x, v);
      CountsOfMore(Inserted(init, x), last, v);
    }
  }

  predicate UpTo(s: seq<nat>, v: nat) {
    forall i :: 0 <= i < |s| ==> s[i] <= v
  }

  lemma {:induction false} InsertedAscends(s: seq<nat>, x: nat, v: nat)
    requires Rising(s) && UpTo(s, v) && x <= v
    ensures Rising(Inserted(s, x)) && UpTo(Inserted(s, x), v)
  {
    if s != [] && s[|s| - 1] > x {
      InsertedAscends(s[..|s| - 1], x, s[|s| - 1]);
    }
  }

  function Largest(s: seq<nat>, x: nat): (v: nat)
    ensures x <= v && UpTo(s, v)
  {
    if s == [] then x
    else
      var v := Largest(s[..|s| - 1], x);
      if s[|s| - 1] <= v then v else s[|s| - 1]
  }

  lemma {:induction false} SortedSorts(s: seq<nat>, v: nat)
    ensures Rising(Sorted(s)) && multiset(Sorted(s)) == multiset(s)
    ensures AtMost(Sorted(s), v) == AtMost(s, v) && Below(Sorted(s), v) == Below(s, v)
  {
    if s != [] {
      var init, last := s[..|s| - 1], s[|s| - 1];
      assert s == init + [last];
      SortedSorts(init, v);
      var most := Largest(Sorted(init), last);
      InsertedAscends(Sorted(init), last, most);
      InsertedCounts(Sorted(init), last, v);
    }
  }

  lemma {:induction false} AllAtMost(s: seq<nat>, v: nat)
    requires UpTo(s, v)
    ensures AtMost(s, v) == |s|
  {
    if s != [] {
      AllAtMost(s[..|s| - 1], v);
    }
  }

  lemma {:induction false} FewerBelow(s: seq<nat>, v: nat)
    ensures Below(s, v) <= |s|
  {
    if s != [] {
      FewerBelow(s[..|s| - 1], v);
    }
  }

  lemma {:induction false} CountsInOrder(s: seq<nat>, i: nat)
    requires Rising(s) && i < |s|
    ensures AtMost(s, s[i]) >= i + 1 && Below(s, s[i]) <= i
  {
    if i == |s| - 1 {
      AllAtMost(s, s[i]);
      FewerBelow(s[..i], s[i]);
    } else {
      CountsInOrder(s[..|s| - 1], i);
    }
  }

  /** The rank of a percentile: the quotient rounded up. */
  function Rank(percent: nat, n: nat): (rank: nat)
    requires 1 <= percent <= 100 && n > 0
    ensures 1 <= rank <= n && 100 * (rank - 1) < percent * n <= 100 * rank
  {
    (percent * n + 99) / 100
  }

  function Nearest(percent: nat, ms: seq<nat>): Option<nat>
    requires 1 <= percent <= 100
  {
    if ms == [] then None else Some(Sorted(ms)[Rank(percent, |ms|) - 1])
  }

  /** A percentile is one of the values, as many are at most that as its rank says, and fewer are below it. */
  lemma NearestRank(percent: nat, ms: seq<nat>)
    requires 1 <= percent <= 100 && ms != []
    ensures var v := Nearest(percent, ms).value;
            && v in ms
            && 100 * AtMost(ms, v) >= percent * |ms| && 100 * Below(ms, v) < percent * |ms|
  {
    hide Sorted, AtMost, Below;
    var i := Rank(percent, |ms|) - 1;
    var v := Sorted(ms)[i];
    SortedSorts(ms, v);
    CountsInOrder(Sorted(ms), i);
    assert v in multiset(Sorted(ms));
  }

  lemma RanksAscend(low: nat, high: nat, n: nat)
    requires 1 <= low <= high <= 100 && n > 0
    ensures Rank(low, n) <= Rank(high, n)
  {
    assert low * n <= high * n;
  }

  lemma PercentilesAscend(ms: seq<nat>, low: nat, high: nat)
    requires 1 <= low <= high <= 100 && ms != []
    ensures Nearest(low, ms).value <= Nearest(high, ms).value
  {
    hide Sorted;
    SortedSorts(ms, 0);
    RanksAscend(low, high, |ms|);
  }
}
