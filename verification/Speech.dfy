/**
The speech-presence detector: bytes are cut into frames, frames become voiced or not, and voiced frames
open and close an event with hysteresis.

The logarithm and the clock are functions the theorems quantify over: `loudness` turns the mean square of
a frame into decibels, and `clock` gives the time at which a frame, counted from the first, is looked at.
*/
module Speech {
  import opened Options

  newtype byte = x: int | 0 <= x < 256

  const FRAME_SAMPLES := 480
  const FRAME_BYTES := 960
  const MAX_EVENT := 90.0
  const SILENCE := -120.0

  datatype Config = Config(margin: real, window: nat, enter: nat, leave: real, minLevel: real,
                           loudness: real -> real, clock: nat -> real)

  predicate Valid(cfg: Config) {
    3.0 <= cfg.margin <= 40.0 && 3 <= cfg.enter <= cfg.window <= 166 && 0.3 <= cfg.leave <= 10.0
        && -90.0 <= cfg.minLevel <= -10.0
  }

  /** The clock does not go back. */
  ghost predicate Steady(cfg: Config) {
    forall i, j :: i <= j ==> cfg.clock(i) <= cfg.clock(j)
  }

  datatype State = State(recent: seq<bool>, floor: Option<real>, pending: seq<byte>, active: bool,
                         startedAt: real, lastVoicedAt: real, peak: real, frames: nat, voicedFrames: nat)

  const FRESH := State([], None, [], false, 0.0, 0.0, SILENCE, 0, 0)

  datatype Side = Enter | Leave
  datatype Edge = Edge(side: Side, level: real)

  // ---- One frame ----

  type Frame = raw: seq<byte> | |raw| == FRAME_BYTES witness seq(FRAME_BYTES, _ => 0)

  /** A little-endian sample in two's complement. */
  function Sample(low: byte, high: byte): (v: int)
    ensures -32768 <= v < 32768
  {
    var word := low as int + 256 * high as int;
    if word >= 32768 then word - 65536 else word
  }

  function Samples(raw: seq<byte>): (samples: seq<int>)
    requires |raw| % 2 == 0
    ensures 2 * |samples| == |raw|
  {
    if raw == [] then [] else Samples(raw[..|raw| - 2]) + [Sample(raw[|raw| - 2], raw[|raw| - 1])]
  }

  function SumOfSquares(samples: seq<int>): (sum: nat) {
    if samples == [] then 0
    else
      var last := samples[|samples| - 1];
      assert last * last >= 0;
      SumOfSquares(samples[..|samples| - 1]) + last * last
  }

  function Crossings(samples: seq<int>): (n: nat)
    ensures n == 0 || n < |samples|
  {
    if |samples| < 2 then 0
    else
      var n := |samples|;
      Crossings(samples[..n - 1]) + if (samples[n - 2] < 0) != (samples[n - 1] < 0) then 1 else 0
  }

  function Level(cfg: Config, raw: Frame): real {
    var energy := SumOfSquares(Samples(raw)) as real / FRAME_SAMPLES as real;
    if energy > 0.0 then cfg.loudness(energy / 1073741824.0) else SILENCE
  }

  function CrossingRate(raw: Frame): real {
    Crossings(Samples(raw)) as real / (FRAME_SAMPLES - 1) as real
  }

  /** The floor moves a part of the way to the level: quickly down, slowly up. */
  function Floor(floor: Option<real>, level: real): real {
    var before := if floor.Some? then floor.value else level;
    before + (level - before) * if level < before then 0.2 else 0.005
  }

  predicate IsVoiced(cfg: Config, floor: real, raw: Frame) {
    Level(cfg, raw) >= cfg.minLevel && Level(cfg, raw) >= floor + cfg.margin && 0.02 <= CrossingRate(raw) <= 0.35
  }

  function LastOf(s: seq<bool>, n: nat): (r: seq<bool>)
    ensures |r| <= n
  {
    if |s| <= n then s else s[|s| - n..]
  }

  function Voices(s: seq<bool>): (n: nat)
    ensures n <= |s|
  {
    if s == [] then 0 else Voices(s[..|s| - 1]) + if s[|s| - 1] then 1 else 0
  }

  predicate VoicedIn(cfg: Config, s: State, raw: Frame) {
    IsVoiced(cfg, Floor(s.floor, Level(cfg, raw)), raw)
  }

  /** The counters and the window after a frame, before its edge is decided. */
  function Measured(cfg: Config, s: State, raw: Frame): State {
    var level, now, voiced := Level(cfg, raw), cfg.clock(s.frames), VoicedIn(cfg, s, raw);
    s.(floor := Some(Floor(s.floor, level)), frames := s.frames + 1, recent := LastOf(s.recent + [voiced], cfg.window),
       voicedFrames := s.voicedFrames + (if voiced then 1 else 0), lastVoicedAt := if voiced then now
           else s.lastVoicedAt,
       peak := if voiced && level > s.peak then level else s.peak)
  }

  predicate Opens(cfg: Config, m: State) {
    !m.active && Voices(m.recent) >= cfg.enter
  }

  predicate Closes(cfg: Config, m: State, now: real) {
    m.active && (now - m.lastVoicedAt >= cfg.leave || now - m.startedAt >= MAX_EVENT)
  }

  function Heard(cfg: Config, s: State, raw: Frame): (State, Option<Edge>) {
    var m, now := Measured(cfg, s, raw), cfg.clock(s.frames);
    if Opens(cfg, m) then (m.(active := true, startedAt := now), Some(Edge(Enter, Level(cfg, raw))))
    else if Closes(cfg, m, now) then (m.(active := false, recent := []), Some(Edge(Leave, Level(cfg, raw))))
    else (m, None)
  }

  function Reset(s: State): State {
    s.(recent := [], pending := [], active := false)
  }

  // ---- Bytes ----

  predicate Aligned(n: nat) {
    n % FRAME_BYTES == 0
  }

  /** Whole frames, one after the other. */
  function Frames(cfg: Config, s: State, data: seq<byte>): (State, seq<Edge>)
    requires Aligned(|data|)
  {
    if data == [] then (s, [])
    else
      var n := |data| - FRAME_BYTES;
      var (before, edges) := Frames(cfg, s, data[..n]);
      var (after, edge) := Heard(cfg, before, data[n..]);
      (after, edges + if edge.Some? then [edge.value] else [])
  }

  function Whole(n: nat): (whole: nat)
    ensures whole <= n < whole + FRAME_BYTES && Aligned(whole)
  {
    n - n % FRAME_BYTES
  }

  /** The whole frames of what was left over and what is new; the rest is left over. */
  function Feed(cfg: Config, s: State, pcm: seq<byte>): (State, seq<Edge>) {
    var data := s.pending + pcm;
    var whole := Whole(|data|);
    Frames(cfg, s.(pending := data[whole..]), data[..whole])
  }

  lemma HeardKeepsPending(cfg: Config, s: State, raw: Frame, pending: seq<byte>)
    ensures Heard(cfg, s, raw).0.pending == s.pending
    ensures Heard(cfg, s.(pending := pending), raw) == (Heard(cfg, s, raw).0.(pending := pending), Heard(cfg, s, raw).1)
  {
    hide Level, CrossingRate, Floor, IsVoiced, LastOf, Voices;
  }

  lemma {:induction false} FramesKeepPending(cfg: Config, s: State, data: seq<byte>, pending: seq<byte>)
    requires Aligned(|data|)
    ensures Frames(cfg, s, data).0.pending == s.pending
    ensures Frames(cfg, s.(pending := pending), data) == (Frames(cfg, s, data).0.(pending := pending),
        Frames(cfg, s, data).1)
  {
    hide Heard;
    if data != [] {
      var n := |data| - FRAME_BYTES;
      FramesKeepPending(cfg, s, data[..n], pending);
      HeardKeepsPending(cfg, Frames(cfg, s, data[..n]).0, data[n..], pending);
    }
  }

  lemma AlignedSum(m: nat, n: nat)
    requires Aligned(m) && Aligned(n)
    ensures Aligned(m + n) && (n > 0 ==> n >= FRAME_BYTES && Aligned(n - FRAME_BYTES))
  {
  }

  lemma {:induction false} FramesCompose(cfg: Config, s: State, a: seq<byte>, b: seq<byte>)
    requires Aligned(|a|) && Aligned(|b|)
    ensures Aligned(|a + b|)
    ensures var (s1, e1) := Frames(cfg, s, a); var (s2, e2) := Frames(cfg, s1, b);
            Frames(cfg, s, a + b) == (s2, e1 + e2)
    decreases |b|
  {
    hide Heard;
    AlignedSum(|a|, |b|);
    if b == [] {
      assert a + b == a;
      assert Frames(cfg, s, a).1 + [] == Frames(cfg, s, a).1;
    } else {
      var n := |b| - FRAME_BYTES;
      FramesCompose(cfg, s, a, b[..n]);
      assert (a + b)[..|a| + n] == a + b[..n];
      assert (a + b)[|a| + n..] == b[n..];
      var (s1, e1) := Frames(cfg, s, a);
      var (s2, e2) := Frames(cfg, s1, b[..n]);
      var (_, edge) := Heard(cfg, s2, b[n..]);
      var last := if edge.Some? then [edge.value] else [];
      assert (e1 + e2) + last == e1 + (e2 + last);
    }
  }

  lemma WholeOfSum(whole: nat, n: nat)
    requires Aligned(whole)
    ensures Whole(whole + n) == whole + Whole(n)
  {
  }

  /** Feeding two chunks is feeding their concatenation: the same edges, and the same state to the last field. */
  lemma FeedComposes(cfg: Config, s: State, a: seq<byte>, b: seq<byte>)
    ensures var (s1, e1) := Feed(cfg, s, a); var (s2, e2) := Feed(cfg, s1, b);
            Feed(cfg, s, a + b) == (s2, e1 + e2)
  {
    hide Frames;
    var first, whole := s.pending + a, Whole(|s.pending + a|);
    var rest := first[whole..];
    var second, more := rest + b, Whole(|rest + b|);
    var all := s.pending + (a + b);
    WholeOfSum(whole, |second|);
    assert |all| == whole + |second|;
    assert all[..whole + more] == first[..whole] + second[..more];
    assert all[whole + more..] == second[more..];
    FramesKeepPending(cfg, s, first[..whole], rest);
    var s1 := Frames(cfg, s, first[..whole]).0;
    FramesKeepPending(cfg, s1, second[..more], second[more..]);
    FramesKeepPending(cfg, s1.(pending := rest), second[..more], second[more..]);
    FramesKeepPending(cfg, s, all[..whole + more], all[whole + more..]);
    FramesCompose(cfg, s, first[..whole], second[..more]);
  }

  function FeedAll(cfg: Config, s: State, chunks: seq<seq<byte>>): (State, seq<Edge>) {
    if chunks == [] then (s, [])
    else
      var (before, edges) := FeedAll(cfg, s, chunks[..|chunks| - 1]);
      var (after, more) := Feed(cfg, before, chunks[|chunks| - 1]);
      (after, edges + more)
  }

  function Joined(chunks: seq<seq<byte>>): seq<byte> {
    if chunks == [] then [] else Joined(chunks[..|chunks| - 1]) + chunks[|chunks| - 1]
  }

  lemma FeedNothing(cfg: Config, s: State)
    requires |s.pending| < FRAME_BYTES
    ensures Feed(cfg, s, []) == (s, [])
  {
    assert s.pending + [] == s.pending;
    assert s.pending[0..] == s.pending;
  }

  /** However the stream is cut into chunks, the detector does the same. */
  lemma {:induction false} ChunksDoNotMatter(cfg: Config, s: State, chunks: seq<seq<byte>>)
    requires |s.pending| < FRAME_BYTES
    ensures FeedAll(cfg, s, chunks) == Feed(cfg, s, Joined(chunks))
  {
    hide Feed;
    if chunks == [] {
      FeedNothing(cfg, s);
    } else {
      var init, last := chunks[..|chunks| - 1], chunks[|chunks| - 1];
      ChunksDoNotMatter(cfg, s, init);
      FeedComposes(cfg, s, Joined(init), last);
    }
  }

  // ---- Calls ----

  datatype Call = Chunk(pcm: seq<byte>) | Clear

  function Play(cfg: Config, s: State, calls: seq<Call>): (State, seq<Edge>) {
    if calls == [] then (s, [])
    else
      var (before, edges) := Play(cfg, s, calls[..|calls| - 1]);
      match calls[|calls| - 1]
      case Chunk(pcm) =>
        var (after, more) := Feed(cfg, before, pcm);
        (after, edges + more)
      case Clear => (Reset(before), edges)
  }

  function Chunks(chunks: seq<seq<byte>>): (calls: seq<Call>)
    ensures |calls| == |chunks|
  {
    if chunks == [] then [] else Chunks(chunks[..|chunks| - 1]) + [Chunk(chunks[|chunks| - 1])]
  }

  lemma {:induction false} PlayIsFeedAll(cfg: Config, s: State, chunks: seq<seq<byte>>)
    ensures Play(cfg, s, Chunks(chunks)) == FeedAll(cfg, s, chunks)
  {
    hide Feed;
    if chunks != [] {
      PlayIsFeedAll(cfg, s, chunks[..|chunks| - 1]);
      assert Chunks(chunks)[..|chunks| - 1] == Chunks(chunks[..|chunks| - 1]);
    }
  }

  lemma {:induction false} PlayContinues(cfg: Config, s: State, calls: seq<Call>, more: seq<Call>)
    ensures var (before, edges) := Play(cfg, s, calls); var (after, late) := Play(cfg, before, more);
            Play(cfg, s, calls + more) == (after, edges + late)
  {
    hide Feed, Reset;
    if more == [] {
      assert calls + more == calls;
      assert Play(cfg, s, calls).1 + [] == Play(cfg, s, calls).1;
    } else {
      PlayContinues(cfg, s, calls, more[..|more| - 1]);
      assert (calls + more)[..|calls + more| - 1] == calls + more[..|more| - 1];
      var (before, edges) := Play(cfg, s, calls);
      var (middle, some) := Play(cfg, before, more[..|more| - 1]);
      match more[|more| - 1] {
        case Chunk(pcm) => assert edges + some + Feed(cfg, middle, pcm).1 == edges + (some + Feed(cfg, middle, pcm).1);
        case Clear =>
      }
    }
  }

  /** After a reset the detector does what one chunk of everything since then would make it do. */
  lemma SinceReset(cfg: Config, s: State, calls: seq<Call>, chunks: seq<seq<byte>>)
    ensures var (before, edges) := Play(cfg, s, calls);
            var (after, late) := Feed(cfg, Reset(before), Joined(chunks));
            Play(cfg, s, calls + [Clear] + Chunks(chunks)) == (after, edges + late)
  {
    hide Feed;
    var (before, edges) := Play(cfg, s, calls);
    assert (calls + [Clear])[..|calls|] == calls;
    PlayContinues(cfg, s, calls + [Clear], Chunks(chunks));
    PlayIsFeedAll(cfg, Reset(before), chunks);
    ChunksDoNotMatter(cfg, Reset(before), chunks);
  }

  // ---- The noise floor ----

  /** All levels up to now lie between these bounds. */
  predicate LevelsWithin(cfg: Config, data: seq<byte>, low: real, high: real)
    requires Aligned(|data|)
  {
    data == [] ||
    (low <= Level(cfg, data[|data| - FRAME_BYTES..]) <= high
        && LevelsWithin(cfg, data[..|data| - FRAME_BYTES], low, high))
  }

  lemma FloorBetween(floor: Option<real>, level: real, low: real, high: real)
    requires low <= level <= high && (floor.Some? ==> low <= floor.value <= high)
    ensures low <= Floor(floor, level) <= high
  {
  }

  /** The floor never leaves the range of the levels seen so far. */
  lemma {:induction false} FloorWithinLevels(cfg: Config, s: State, data: seq<byte>, low: real, high: real)
    requires Aligned(|data|) && LevelsWithin(cfg, data, low, high)
    requires s.floor.Some? ==> low <= s.floor.value <= high
    ensures var s' := Frames(cfg, s, data).0; s'.floor.Some? ==> low <= s'.floor.value <= high
  {
    hide Level, Floor, VoicedIn, LastOf, Voices;
    if data != [] {
      var n := |data| - FRAME_BYTES;
      FloorWithinLevels(cfg, s, data[..n], low, high);
      FloorBetween(Frames(cfg, s, data[..n]).0.floor, Level(cfg, data[n..]), low, high);
    }
  }

  // ---- Events ----

  datatype Mark = Mark(side: Side, at: real, voiced: bool)

  /** The edges of a run with their times, and whether the frame they fall on was voiced. */
  function Marks(cfg: Config, s: State, data: seq<byte>): seq<Mark>
    requires Aligned(|data|)
  {
    if data == [] then []
    else
      var n := |data| - FRAME_BYTES;
      var before := Frames(cfg, s, data[..n]).0;
      var edge := Heard(cfg, before, data[n..]).1;
      Marks(cfg, s, data[..n]) +
      if edge.Some? then [Mark(edge.value.side, cfg.clock(before.frames), VoicedIn(cfg, before, data[n..]))] else []
  }

  /** Enter and leave take turns, an enter falls on a voiced frame, and a closed event lasted long enough. */
  ghost predicate WellMarked(cfg: Config, marks: seq<Mark>) {
    && (forall i :: 0 <= i < |marks| ==> marks[i].side == if i % 2 == 0 then Enter else Leave)
    && (forall i :: 0 <= i < |marks| && marks[i].side.Enter? ==> marks[i].voiced)
    && (forall i :: 0 < i < |marks| && marks[i].side.Leave? ==> marks[i].at - marks[i - 1].at >= cfg.leave)
  }

  /** What the state has to do with the edges so far. */
  ghost predicate Consistent(cfg: Config, s: State, marks: seq<Mark>) {
    && s.active == (|marks| % 2 == 1)
    && (!s.active ==> Voices(s.recent) < cfg.enter)
    && (s.active ==>
          && s.frames > 0 && s.startedAt == marks[|marks| - 1].at
          && s.startedAt <= s.lastVoicedAt <= cfg.clock(s.frames - 1)
          && cfg.clock(s.frames - 1) - s.startedAt < MAX_EVENT)
  }

  lemma {:induction false} VoicesOfSuffix(s: seq<bool>, k: nat)
    requires k <= |s|
    ensures Voices(s[k..]) <= Voices(s)
  {
    if k == |s| {
      assert s[k..] == [];
    } else {
      var init := s[..|s| - 1];
      VoicesOfSuffix(init, k);
      assert s[k..][..|s[k..]| - 1] == init[k..];
    }
  }

  /** Without a new voiced frame the window holds no more voiced frames than before. */
  lemma SilenceAddsNothing(recent: seq<bool>, window: nat)
    ensures Voices(LastOf(recent + [false], window)) <= Voices(recent)
  {
    var s := recent + [false];
    assert s[..|s| - 1] == recent;
    if |s| > window {
      VoicesOfSuffix(s, |s| - window);
    }
  }

  lemma NoVoices()
    ensures Voices([]) == 0
  {
  }

  lemma HeardIsConsistent(cfg: Config, s: State, raw: Frame, marks: seq<Mark>)
    requires Valid(cfg) && Steady(cfg) && WellMarked(cfg, marks) && Consistent(cfg, s, marks)
    ensures var (s', edge) := Heard(cfg, s, raw);
            var marks' := marks + if edge.Some?
                then [Mark(edge.value.side, cfg.clock(s.frames), VoicedIn(cfg, s, raw))] else [];
            WellMarked(cfg, marks') && Consistent(cfg, s', marks')
  {
    hide Level, VoicedIn, Voices, LastOf, Floor;
    SilenceAddsNothing(s.recent, cfg.window);
    assert Voices([]) == 0 by { NoVoices(); }
    assert s.frames > 0 ==> cfg.clock(s.frames - 1) <= cfg.clock(s.frames);
  }

  lemma FreshIsConsistent(cfg: Config, s: State)
    requires Valid(cfg) && !s.active && s.recent == []
    ensures WellMarked(cfg, []) && Consistent(cfg, s, [])
  {
  }

  /**
  From a fresh or reset detector, edges strictly alternate; every enter falls on a voiced frame; every
  closed event lasted at least the leave time; and none is open after a frame 90 seconds after its start.
  */
  lemma {:induction false} EventsAreWellFormed(cfg: Config, s: State, data: seq<byte>)
    requires Valid(cfg) && Steady(cfg) && Aligned(|data|) && !s.active && s.recent == []
    ensures WellMarked(cfg, Marks(cfg, s, data)) && Consistent(cfg, Frames(cfg, s, data).0, Marks(cfg, s, data))
  {
    hide Heard, WellMarked, Consistent, VoicedIn;
    if data == [] {
      FreshIsConsistent(cfg, s);
    } else {
      var n := |data| - FRAME_BYTES;
      EventsAreWellFormed(cfg, s, data[..n]);
      HeardIsConsistent(cfg, Frames(cfg, s, data[..n]).0, data[n..], Marks(cfg, s, data[..n]));
    }
  }

  /** The marks are the edges that `Frames` returns. */
  lemma {:induction false} MarksAreEdges(cfg: Config, s: State, data: seq<byte>)
    requires Aligned(|data|)
    ensures |Marks(cfg, s, data)| == |Frames(cfg, s, data).1|
    ensures forall i :: 0 <= i < |Marks(cfg, s, data)| ==> Marks(cfg, s, data)[i].side == Frames(cfg, s, data).1[i].side
  {
    hide Heard, VoicedIn;
    if data != [] {
      MarksAreEdges(cfg, s, data[..|data| - FRAME_BYTES]);
    }
  }
}
