/** The detector object, fed with chunks of any size. */
module SpeechActivity {
  import opened Options
  import opened Speech
  import opened SpeechAnswers

  lemma NoFrames(cfg: Config, s: State)
    ensures Aligned(0) && Frames(cfg, s, []) == (s, [])
  {
  }

  lemma NextFrame(offset: nat, whole: nat)
    requires offset < whole && Aligned(offset) && Aligned(whole)
    ensures offset + FRAME_BYTES <= whole && Aligned(offset + FRAME_BYTES)
  {
  }

  lemma FramesMore(cfg: Config, s: State, data: seq<byte>, raw: Frame)
    requires Aligned(|data|)
    ensures Aligned(|data + raw|)
    ensures var (before, edges) := Frames(cfg, s, data); var (after, edge) := Heard(cfg, before, raw);
            Frames(cfg, s, data + raw) == (after, edges + if edge.Some? then [edge.value] else [])
  {
    hide Heard;
    assert (data + raw)[..|data|] == data && (data + raw)[|data|..] == raw;
  }

  class Activity {
    const config: Config
    var recent: seq<bool>
    var floorDb: Option<real>
    var pending: seq<byte>
    var active: bool
    var startedAt: real
    var lastVoicedAt: real
    var peakDb: real
    var frames: nat
    var voicedFrames: nat

    function View(): State
      reads this
    {
      State(recent, floorDb, pending, active, startedAt, lastVoicedAt, peakDb, frames, voicedFrames)
    }

    /** Times are given in milliseconds and kept as numbers of 30 ms frames. */
    constructor (marginDb: real, enterMs: nat, windowMs: nat, leaveMs: nat, minLevelDb: real,
                 loudness: real -> real, clock: nat -> real)
      requires 3.0 <= marginDb <= 40.0 && 90 <= enterMs <= windowMs <= 5000
      requires 300 <= leaveMs <= 10000 && -90.0 <= minLevelDb <= -10.0
      ensures Valid(config) && View() == FRESH && config.clock == clock && config.loudness == loudness
      ensures config.margin == marginDb && config.minLevel == minLevelDb && config.leave * 1000.0 == leaveMs as real
      ensures 30 * config.enter <= enterMs < 30 * config.enter + 30
      ensures 30 * config.window <= windowMs < 30 * config.window + 30
    {
      config := Config(marginDb, windowMs / 30, enterMs / 30, leaveMs as real / 1000.0, minLevelDb, loudness, clock);
      recent, floorDb, pending, active := [], None, [], false;
      startedAt, lastVoicedAt, peakDb, frames, voicedFrames := 0.0, 0.0, SILENCE, 0, 0;
    }

    method ResetState()
      modifies this
      ensures View() == Reset(old(View())) == old(View()).(recent := [], pending := [], active := false)
    {
      recent := [];
      pending := [];
      active := false;
    }

    /** Level, floor, window and counters; no edge yet. */
    method MeasureFrame(raw: Frame) returns (level: real)
      modifies this
      ensures View() == Measured(config, old(View()), raw) && level == Level(config, raw)
    {
      hide Level, CrossingRate, LastOf;
      level := Level(config, raw);
      var rate := CrossingRate(raw);
      if floorDb.None? {
        floorDb := Some(level);
      }
      floorDb := Some(floorDb.value + (level - floorDb.value) * if level < floorDb.value then 0.2 else 0.005);
      var voiced := level >= config.minLevel && level >= floorDb.value + config.margin && 0.02 <= rate <= 0.35;
      frames := frames + 1;
      var now := config.clock(frames - 1);
      recent := LastOf(recent + [voiced], config.window);
      if voiced {
        voicedFrames := voicedFrames + 1;
        lastVoicedAt := now;
        peakDb := if level > peakDb then level else peakDb;
      }
    }

    method ReadFrame(raw: Frame) returns (edge: Option<Edge>)
      modifies this
      ensures (View(), edge) == Heard(config, old(View()), raw)
      ensures HeardAs(config, old(View()), raw, View(), edge)
    {
      hide Measured, Level, Voices, HeardAs;
      HeardMeans(config, View(), raw);
      var now := config.clock(frames);
      var level := MeasureFrame(raw);
      if !active {
        if Voices(recent) >= config.enter {
          active, startedAt := true, now;
          return Some(Edge(Enter, level));
        }
        return None;
      }
      if now - lastVoicedAt >= config.leave || now - startedAt >= MAX_EVENT {
        active := false;
        recent := [];
        return Some(Edge(Leave, level));
      }
      edge := None;
    }

    method FeedBytes(pcm: seq<byte>) returns (edges: seq<Edge>)
      modifies this
      ensures (View(), edges) == Feed(config, old(View()), pcm)
    {
      hide Heard, Frames, Whole;
      var data := pending + pcm;
      var whole := Whole(|data|);
      pending := data[whole..];
      edges := [];
      ghost var start := View();
      var offset := 0;
      NoFrames(config, start);
      assert data[..0] == [];
      while offset < whole
        invariant 0 <= offset <= whole && Aligned(offset)
        invariant (View(), edges) == Frames(config, start, data[..offset])
      {
        NextFrame(offset, whole);
        var edge := ReadFrame(data[offset..offset + FRAME_BYTES]);
        FramesMore(config, start, data[..offset], data[offset..offset + FRAME_BYTES]);
        assert data[..offset] + data[offset..offset + FRAME_BYTES] == data[..offset + FRAME_BYTES];
        assert edges + [] == edges;
        if edge.Some? {
          edges := edges + [edge.value];
        }
        offset := offset + FRAME_BYTES;
      }
    }

    /** Whatever chunks and resets come: what is proved of `Play` holds of this object. */
    method Serve(calls: seq<Call>) returns (edges: seq<Edge>)
      modifies this
      ensures (View(), edges) == Play(config, old(View()), calls)
    {
      hide Feed, Reset;
      edges := [];
      for i := 0 to |calls|
        invariant (View(), edges) == Play(config, old(View()), calls[..i])
      {
        assert calls[..i + 1][..i] == calls[..i];
        match calls[i] {
          case Chunk(pcm) =>
            var more := FeedBytes(pcm);
            edges := edges + more;
          case Clear =>
            ResetState();
        }
      }
      assert calls[..|calls|] == calls;
    }
  }
}
