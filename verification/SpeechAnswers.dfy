/** What a frame, and a chunk, comes to, told from the samples, the levels and the clock. */
module SpeechAnswers {
  import opened Options
  import opened Speech

  // ---- What is measured of a frame ----

  /** Sample `i` of the frame: two bytes, the low one first, in two's complement. */
  lemma {:induction false} SamplesMean(raw: seq<byte>, i: nat)
    requires |raw| % 2 == 0 && 2 * i < |raw|
    ensures 2 * i + 1 < |raw|
    ensures var word := raw[2 * i] as int + 256 * raw[2 * i + 1] as int;
            Samples(raw)[i] == if word < 32768 then word else word - 65536
  {
    if 2 * i + 2 < |raw| {
      SamplesMean(raw[..|raw| - 2], i);
    }
  }

  lemma {:induction false} SquaresAdd(a: seq<int>, b: seq<int>)
    ensures SumOfSquares(a + b) == SumOfSquares(a) + SumOfSquares(b)
    ensures forall x :: SumOfSquares([x]) == x * x
    decreases |b|
  {
    forall x: int ensures SumOfSquares([x]) == x * x {
      assert [x][..0] == [];
    }
    if b == [] {
      assert a + b == a;
    } else {
      SquaresAdd(a, b[..|b| - 1]);
      assert (a + b)[..|a + b| - 1] == a + b[..|b| - 1];
    }
  }

  /** The sign changes on the way to this sample. */
  predicate Flips(samples: seq<int>, i: nat)
    requires i < |samples|
  {
    i > 0 && (samples[i - 1] < 0 <= samples[i] || samples[i] < 0 <= samples[i - 1])
  }

  function SignChanges(samples: seq<int>): set<nat> {
    set i: nat | i < |samples| && Flips(samples, i)
  }

  lemma {:induction false} CrossingsMean(samples: seq<int>)
    ensures Crossings(samples) == |SignChanges(samples)|
  {
    if |samples| < 2 {
      assert SignChanges(samples) == {};
    } else {
      var n: nat := |samples| - 1;
      CrossingsMean(samples[..n]);
      var last: set<nat> := if Flips(samples, n) then {n} else {};
      assert forall i: nat :: i < n ==> Flips(samples[..n], i) == Flips(samples, i);
      assert SignChanges(samples) == SignChanges(samples[..n]) + last;
    }
  }

  function Voiced(recent: seq<bool>): set<nat> {
    set i: nat | i < |recent| && recent[i]
  }

  lemma {:induction false} VoicesMean(recent: seq<bool>)
    ensures Voices(recent) == |Voiced(recent)|
  {
    if recent == [] {
      assert Voiced(recent) == {};
    } else {
      var n: nat := |recent| - 1;
      VoicesMean(recent[..n]);
      var last: set<nat> := if recent[n] then {n} else {};
      assert Voiced(recent) == Voiced(recent[..n]) + last;
    }
  }

  // ---- One frame ----

  /** The level in decibels: of the mean square of 480 samples against full scale, and the lowest for silence. */
  predicate HasLevel(cfg: Config, raw: Frame, level: real) {
    var sum := SumOfSquares(Samples(raw));
    level == if sum == 0 then -120.0 else cfg.loudness(sum as real / 480.0 / (32768.0 * 32768.0))
  }

  /** The floor goes a fifth of the way down, or one two-hundredth of the way up. */
  predicate MovesFloor(floor: Option<real>, level: real, floor': real) {
    if floor.None? then floor' == level
    else if level < floor.value then 5.0 * floor' == 4.0 * floor.value + level
    else 200.0 * floor' == 199.0 * floor.value + level
  }

  /** Loud enough, above the floor, and with as many sign changes as a voice has. */
  predicate SoundsVoiced(cfg: Config, raw: Frame, level: real, floor: real) {
    var n := |SignChanges(Samples(raw))|;
    level >= cfg.minLevel && level - floor >= cfg.margin && 479.0 * 0.02 <= n as real <= 479.0 * 0.35
  }

  /** The latest frames, no more than the window holds. */
  predicate Slides(window: nat, recent: seq<bool>, voiced: bool, recent': seq<bool>) {
    var all := recent + [voiced];
    && |recent'| == (if |all| <= window then |all| else window)
    && recent' == all[|all| - |recent'|..]
  }

  /** The state after a frame but for the event, and whether the frame was voiced. */
  predicate Counts(cfg: Config, s: State, level: real, voiced: bool, s': State) {
    && s'.frames == s.frames + 1
    && s'.voicedFrames == (if voiced then s.voicedFrames + 1 else s.voicedFrames)
    && s'.lastVoicedAt == (if voiced then cfg.clock(s.frames) else s.lastVoicedAt)
    && s'.peak == (if voiced && level > s.peak then level else s.peak)
    && s'.pending == s.pending
  }

  /** An event starts with enough voiced frames in the window, and ends in silence or at its longest. */
  predicate Decides(cfg: Config, s: State, level: real, recent: seq<bool>, s': State, edge: Option<Edge>) {
    var now := cfg.clock(s.frames);
    if !s.active && |Voiced(recent)| >= cfg.enter then
      edge == Some(Edge(Enter, level)) && s'.active && s'.startedAt == now && s'.recent == recent
    else if s.active && (now - s'.lastVoicedAt >= cfg.leave || now - s.startedAt >= 90.0) then
      edge == Some(Edge(Leave, level)) && !s'.active && s'.startedAt == s.startedAt && s'.recent == []
    else
      edge == None && s'.active == s.active && s'.startedAt == s.startedAt && s'.recent == recent
  }

  /** One frame: level, floor, verdict and window, and the edge they lead to. */
  ghost predicate HeardAs(cfg: Config, s: State, raw: Frame, s': State, edge: Option<Edge>) {
    exists level, voiced, recent ::
      && HasLevel(cfg, raw, level)
      && s'.floor.Some? && MovesFloor(s.floor, level, s'.floor.value)
      && (voiced <==> SoundsVoiced(cfg, raw, level, s'.floor.value))
      && Slides(cfg.window, s.recent, voiced, recent)
      && Counts(cfg, s, level, voiced, s')
      && Decides(cfg, s, level, recent, s', edge)
  }

  lemma LevelMeans(cfg: Config, raw: Frame)
    ensures HasLevel(cfg, raw, Level(cfg, raw))
  {
    hide SumOfSquares, Samples;
  }

  lemma FloorMeans(floor: Option<real>, level: real)
    ensures MovesFloor(floor, level, Floor(floor, level))
  {
  }

  lemma VoicedMeans(cfg: Config, s: State, raw: Frame)
    ensures VoicedIn(cfg, s, raw)
       <==> SoundsVoiced(cfg, raw, Level(cfg, raw), Floor(s.floor, Level(cfg, raw)))
  {
    CrossingsMean(Samples(raw));
    hide Level, Floor, Crossings, SignChanges, Samples;
  }

  lemma WindowMeans(window: nat, recent: seq<bool>, voiced: bool)
    ensures Slides(window, recent, voiced, LastOf(recent + [voiced], window))
  {
  }

  lemma HeardMeans(cfg: Config, s: State, raw: Frame)
    ensures var (s', edge) := Heard(cfg, s, raw); HeardAs(cfg, s, raw, s', edge)
  {
    var (s', edge) := Heard(cfg, s, raw);
    var level, voiced := Level(cfg, raw), VoicedIn(cfg, s, raw);
    var recent := LastOf(s.recent + [voiced], cfg.window);
    LevelMeans(cfg, raw);
    FloorMeans(s.floor, level);
    VoicedMeans(cfg, s, raw);
    WindowMeans(cfg.window, s.recent, voiced);
    VoicesMean(recent);
    hide Level, Floor, VoicedIn, LastOf, Voices, Voiced, HasLevel, MovesFloor, SoundsVoiced, Slides;
    assert Counts(cfg, s, level, voiced, s');
    assert Decides(cfg, s, level, recent, s', edge);
  }

  // ---- Chunks ----

  /** Less than a frame is kept for later. */
  lemma FeedShort(cfg: Config, s: State, pcm: seq<byte>)
    requires |s.pending| + |pcm| < 960
    ensures Feed(cfg, s, pcm) == (s.(pending := s.pending + pcm), [])
  {
    assert Whole(|s.pending + pcm|) == 0;
  }

  /** A frame that is complete is read; with `FeedComposes` this says what any chunk does. */
  lemma FeedOne(cfg: Config, s: State, pcm: seq<byte>)
    requires |s.pending| + |pcm| == 960
    ensures var (s', edges) := Feed(cfg, s, pcm);
            && |edges| <= 1
            && HeardAs(cfg, s.(pending := []), s.pending + pcm, s', if edges == [] then None else Some(edges[0]))
  {
    var data, start := s.pending + pcm, s.(pending := []);
    assert Whole(|data|) == 960 && data[..960] == data && data[960..] == [] && data[..0] == [] && data[0..] == data;
    HeardMeans(cfg, start, data);
    hide Heard, HeardAs;
    assert Frames(cfg, start, []) == (start, []);
  }

  lemma ResetMeans(s: State)
    ensures Reset(s) == State([], s.floor, [], false, s.startedAt, s.lastVoicedAt, s.peak, s.frames, s.voicedFrames)
  {
  }
}
