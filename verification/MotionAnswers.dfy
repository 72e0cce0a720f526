/** What each call on the gate of one camera comes to, told field by field from the gate it found. */
module MotionAnswers {
  import opened Options
  import opened MotionGate

  // ---- How much of a picture changed ----

  predicate Differs(a: nat, b: nat) {
    a >= b + 24 || b >= a + 24
  }

  /** The cells that differ by at least 24 levels. */
  function ChangedCells(a: seq<nat>, b: seq<nat>): set<nat>
    requires |a| == |b|
  {
    set i: nat | i < |a| && Differs(a[i], b[i])
  }

  lemma {:induction false} ChangedMeans(a: seq<nat>, b: seq<nat>)
    requires |a| == |b|
    ensures Changed(a, b) == |ChangedCells(a, b)|
  {
    if a == [] {
      assert ChangedCells(a, b) == {};
    } else {
      var n: nat := |a| - 1;
      ChangedMeans(a[..n], b[..n]);
      var last: set<nat> := if Differs(a[n], b[n]) then {n} else {};
      assert ChangedCells(a, b) == ChangedCells(a[..n], b[..n]) + last;
    }
  }

  predicate Motion(before: Thumbnail, now: Thumbnail) {
    |ChangedCells(before, now)| >= 8
  }

  // ---- A frame ----

  /** The first frame of a camera: a probe of two requests, of which this is one, or a baseline to wait from. */
  predicate Starts(g: Gate, probe: bool, g': Gate, granted: bool) {
    && granted == probe
    && if probe
       then g' == g.(previous := g'.previous, observedAt := g'.observedAt,
                     pending := 1, probing := true, armed := false, novel := Some(true), retried := false)
       else g' == g.(previous := g'.previous, observedAt := g'.observedAt, armed := true)
  }

  /** One of the requests left is used up. */
  predicate Draws(g: Gate, g': Gate, granted: bool) {
    && granted == (g.pending > 0)
    && g'.pending == (if granted then g.pending - 1 else 0)
  }

  /** The allowance after an empty reply lasts until its time is over. */
  predicate Ages(g: Gate, now: real, g': Gate) {
    if g.emptyUntil.Some? && g.emptyUntil.value > now
    then g'.emptyUntil == g.emptyUntil && g'.emptyAfter == g.emptyAfter
    else g'.emptyUntil == None == g'.emptyAfter
  }

  /** A frame like the one before it: the third in a row arms the gate and ends the allowance. */
  predicate StaysQuiet(g: Gate, now: real, g': Gate, granted: bool) {
    && Draws(g, g', granted)
    && g'.quiet == (if g.quiet < 2 then g.quiet + 1 else 3)
    && g'.armed == (g.armed || g.quiet >= 2)
    && (if g.quiet < 2 then Ages(g, now, g') else g'.emptyUntil == None == g'.emptyAfter)
    && g' == g.(previous := g'.previous, observedAt := g'.observedAt, pending := g'.pending, quiet := g'.quiet,
                armed := g'.armed, emptyUntil := g'.emptyUntil, emptyAfter := g'.emptyAfter)
  }

  /** Motion in an armed gate, with nothing pending: two requests, of which this is one, and the gate is disarmed. */
  predicate StartsPair(g: Gate, now: real, g': Gate, granted: bool) {
    && granted
    && g' == g.(previous := g'.previous, observedAt := g'.observedAt, quiet := 0, lastChange := Some(now),
                pending := 1, armed := false, retried := false, emptyUntil := None, emptyAfter := None,
                novel := Some(g.lastChange.None? || now - g.lastChange.value >= 8.0))
  }

  /** Motion while the allowance lasts, and not before it starts: two requests more, and no second retry. */
  predicate TakesAllowance(g: Gate, now: real, g': Gate, granted: bool) {
    && granted
    && g' == g.(previous := g'.previous, observedAt := g'.observedAt, quiet := 0, lastChange := Some(now),
                pending := 1, retried := true, emptyUntil := None, emptyAfter := None)
  }

  predicate GoesOn(g: Gate, now: real, g': Gate, granted: bool) {
    && Draws(g, g', granted) && Ages(g, now, g')
    && g' == g.(previous := g'.previous, observedAt := g'.observedAt, quiet := 0, lastChange := Some(now),
                pending := g'.pending, emptyUntil := g'.emptyUntil, emptyAfter := g'.emptyAfter)
  }

  /** Whether a frame is granted a request, and the gate after it. */
  predicate Framed(g: Gate, f: Op, g': Gate, granted: bool)
    requires f.Frame?
  {
    var at := if f.captured.Some? then f.captured.value as real / 1000.0 else f.now;
    && g'.previous == Some(f.thumbnail) && g'.observedAt == Some(at)
    && if g.previous.None? then Starts(g, f.allowProbe, g', granted)
       else if !Motion(g.previous.value, f.thumbnail) then StaysQuiet(g, f.now, g', granted)
       else if g.pending == 0 && g.armed then StartsPair(g, f.now, g', granted)
       else if && g.pending == 0 && g.emptyUntil.Some? && g.emptyAfter.Some?
               && g.emptyUntil.value > f.now && at >= g.emptyAfter.value
       then TakesAllowance(g, f.now, g', granted)
       else GoesOn(g, f.now, g', granted)
  }

  lemma FirstFrameMeans(g: Gate, f: Op)
    requires Inv(g) && f.Frame? && g.previous.None?
    ensures Starts(g, f.allowProbe, Step(g, f), Grants(g, f))
  {
  }

  lemma QuietMeans(g: Gate, f: Op)
    requires Inv(g) && f.Frame? && IsQuiet(g, f)
    ensures StaysQuiet(g, f.now, Step(g, f), Grants(g, f))
  {
    hide Changed;
  }

  lemma MotionMeans(g: Gate, f: Op)
    requires Inv(g) && f.Frame? && Moves(g, f)
    ensures if g.pending == 0 && g.armed then StartsPair(g, f.now, Step(g, f), Grants(g, f))
            else if && g.pending == 0 && g.emptyUntil.Some? && g.emptyAfter.Some?
                    && g.emptyUntil.value > f.now && ObservedAt(f) >= g.emptyAfter.value
            then TakesAllowance(g, f.now, Step(g, f), Grants(g, f))
            else GoesOn(g, f.now, Step(g, f), Grants(g, f))
  {
    hide Changed;
  }

  lemma FrameRemembers(g: Gate, f: Op)
    requires Inv(g) && f.Frame?
    ensures Step(g, f).previous == Some(f.thumbnail) && Step(g, f).observedAt == Some(ObservedAt(f))
  {
    hide Moves;
  }

  lemma FrameMeans(g: Gate, f: Op)
    requires Inv(g) && f.Frame?
    ensures Framed(g, f, Step(g, f), Grants(g, f))
  {
    FrameRemembers(g, f);
    if g.previous.None? {
      FirstFrameMeans(g, f);
    } else {
      ChangedMeans(g.previous.value, f.thumbnail);
      if Moves(g, f) {
        MotionMeans(g, f);
      } else {
        QuietMeans(g, f);
      }
    }
    hide Step, Inv, Grants, Changed, ChangedCells, Starts, StaysQuiet, StartsPair, TakesAllowance, GoesOn;
  }

  // ---- A reply, and the calls without a frame ----

  /** A reply ends the probe; without an object it ends the pair as well, except for one doubtful first reply. */
  predicate Answered(g: Gate, r: Op, g': Gate, retry: bool)
    requires r.Reply?
  {
    && (retry <==> !r.found && r.near && g.pending == 1 && !g.retried)
    && g'.pending == (if r.found then g.pending else if retry then 2 else 0)
    && g'.retried == (g.retried || retry)
    && g'.armed == (g.armed || (g.probing && !r.found && !retry))
    && !g'.probing
    && (if r.empty && !r.found && !r.near && g.pending == 1 && !g.probing && !g.retried && g.novel == Some(true)
        then && g'.emptyUntil == Some(r.at + 10.0)
             && g.observedAt.Some? && g'.emptyAfter == Some(g.observedAt.value + 2.0)
        else g'.emptyUntil == None == g'.emptyAfter)
    && g' == g.(pending := g'.pending, retried := g'.retried, armed := g'.armed, probing := false,
                emptyUntil := g'.emptyUntil, emptyAfter := g'.emptyAfter)
  }

  lemma ReplyMeans(g: Gate, r: Op)
    requires Inv(g) && r.Reply?
    ensures Answered(g, r, Step(g, r), Retries(g, r))
  {
  }

  /** Deferring and cancelling drop what is pending; waiting also arms the gate; a reset forgets the scene. */
  lemma OtherCallsMean(g: Gate)
    requires Inv(g)
    ensures Step(g, Defer) == Step(g, Cancel) == g.(pending := 0, emptyUntil := None, emptyAfter := None)
    ensures Step(g, WaitForMotion)
         == g.(pending := 0, quiet := 0, armed := true, probing := false, emptyUntil := None, emptyAfter := None)
    ensures Step(g, Reset) == Gate(None, 0, 0, true, false, None, None, false, None, None, g.observedAt)
  {
  }
}
