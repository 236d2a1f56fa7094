/** The per-frame time step of the renderer: the elapsed time since the
    previous rendered frame, the drift integration of the phase, and the
    wrap that keeps the phase small. All of it is arithmetic on the state
    pair (phase, last timestamp). */
module PhaseIntegrator {

  import opened Wrappers
  import opened Grating

  /** `2 * .pi` evaluated in single precision. `Float.pi` is rounded toward
      zero (0x40490FDA), so twice it is the Float 0x40C90FDA. */
  const TwoPi: real := 6.28318500518798828125

  /** A phase above this bound is wrapped. */
  const PhaseBound: real := 10000.0

  /** k whole turns of the grating. */
  function Turns(k: int): real
  {
    k as real * TwoPi
  }

  /** a and b differ by a whole number of turns, so a grating drawn with
      either phase looks the same. */
  ghost predicate SameAngle(a: real, b: real)
  {
    exists k: int :: a - b == Turns(k)
  }

  lemma SameAngleTransitive(a: real, b: real, c: real)
    requires SameAngle(a, b) && SameAngle(b, c)
    ensures SameAngle(a, c)
  {
    var j: int :| a - b == Turns(j);
    var k: int :| b - c == Turns(k);
    assert a - c == Turns(j + k);
  }

  /** Adding the same amount to both sides keeps two phases congruent. */
  lemma SameAngleShift(a: real, b: real, d: real)
    requires SameAngle(a, b)
    ensures SameAngle(a + d, b + d)
  {
    var k: int :| a - b == Turns(k);
    assert (a + d) - (b + d) == Turns(k);
  }

  // ---------------------------------------------------------------------
  // Elapsed time

  /** The frame's `dt`: the time since the last rendered frame, or 0 when no
      frame has been rendered yet. Timestamps are seconds. */
  function TimeStep(lastTime: Option<real>, now: real): (dt: real)
    ensures lastTime == None ==> dt == 0.0
    ensures lastTime.Some? ==> lastTime.value + dt == now
    ensures lastTime.Some? && lastTime.value <= now ==> 0.0 <= dt
  {
    match lastTime
    case None => 0.0
    case Some(last) => now - last
  }

  // ---------------------------------------------------------------------
  // The wrap

  /** `x.truncatingRemainder(dividingBy: 2 * .pi)`: whole turns are taken off
      x toward zero until less than one turn is left, so the remainder has
      the sign of x and is smaller than one turn in magnitude.
      TruncatingRemainderFloorForm gives the closed form, and
      TruncatingRemainderSameAngle shows the remainder is congruent to x. */
  function TruncatingRemainder(x: real): (r: real)
    ensures 0.0 <= x ==> 0.0 <= r < TwoPi && r <= x
    ensures x < 0.0 ==> -TwoPi < r <= 0.0 && x <= r
    decreases if 0.0 <= x then x.Floor else (-x).Floor
  {
    if 0.0 <= x then
      if x < TwoPi then x else TruncatingRemainder(x - TwoPi)
    else
      if -TwoPi < x then x else TruncatingRemainder(x + TwoPi)
  }

  /** The number of whole turns in a non-negative x. */
  ghost function WholeTurns(x: real): (k: nat)
    requires 0.0 <= x
    ensures Turns(k) <= x < Turns(k) + TwoPi
    decreases x.Floor
  {
    if x < TwoPi then 0 else 1 + WholeTurns(x - TwoPi)
  }

  /** The whole turns of x are the floor of x / 2π. */
  lemma WholeTurnsIsFloor(x: real)
    requires 0.0 <= x
    ensures WholeTurns(x) == (x / TwoPi).Floor
  {
    var k := WholeTurns(x);
    assert k as real <= x / TwoPi < k as real + 1.0;
  }

  /** For a non-negative x the remainder is x less its whole turns. */
  lemma {:induction false} TruncatingRemainderTurns(x: real)
    requires 0.0 <= x
    ensures TruncatingRemainder(x) == x - Turns(WholeTurns(x))
    decreases x.Floor
  {
    if TwoPi <= x {
      TruncatingRemainderTurns(x - TwoPi);
    }
  }

  /** The closed form: for x >= 0 the remainder is x - 2π * floor(x / 2π), and
      for x < 0 it is the negated remainder of -x. */
  lemma TruncatingRemainderFloorForm(x: real)
    ensures 0.0 <= x ==> TruncatingRemainder(x) == x - TwoPi * (x / TwoPi).Floor as real
    ensures x < 0.0 ==> TruncatingRemainder(x) == -TruncatingRemainder(-x)
  {
    if 0.0 <= x {
      TruncatingRemainderTurns(x);
      WholeTurnsIsFloor(x);
    } else {
      TruncatingRemainderOdd(x);
    }
  }

  lemma {:induction false} TruncatingRemainderOdd(x: real)
    requires x < 0.0
    ensures TruncatingRemainder(x) == -TruncatingRemainder(-x)
    decreases (-x).Floor
  {
    if x <= -TwoPi {
      if x + TwoPi < 0.0 {
        TruncatingRemainderOdd(x + TwoPi);
      }
    }
  }

  /** The remainder differs from x by a whole number of turns. */
  lemma {:induction false} TruncatingRemainderSameAngle(x: real)
    ensures SameAngle(TruncatingRemainder(x), x)
    decreases if 0.0 <= x then x.Floor else (-x).Floor
  {
    var r := TruncatingRemainder(x);
    if 0.0 <= x && TwoPi <= x {
      TruncatingRemainderSameAngle(x - TwoPi);
      var k: int :| r - (x - TwoPi) == Turns(k);
      assert r - x == Turns(k - 1);
    } else if x < 0.0 && x <= -TwoPi {
      TruncatingRemainderSameAngle(x + TwoPi);
      var k: int :| r - (x + TwoPi) == Turns(k);
      assert r - x == Turns(k + 1);
    } else {
      assert r - x == Turns(0);
    }
  }

  /** For a non-negative x the remainder is the only value in [0, 2π) that is
      congruent to x. */
  lemma TruncatingRemainderUnique(x: real, r: real)
    requires 0.0 <= x
    requires 0.0 <= r < TwoPi && SameAngle(r, x)
    ensures r == TruncatingRemainder(x)
  {
    var r' := TruncatingRemainder(x);
    TruncatingRemainderSameAngle(x);
    var j: int :| r - x == Turns(j);
    var k: int :| r' - x == Turns(k);
    assert r' - r == Turns(k - j);
  }

  /** The "keep phase bounded" rule: a phase above 10 000 is replaced by its
      remainder modulo 2π; any other phase is kept. */
  function Wrap(phase: real): (r: real)
    ensures r <= PhaseBound
    ensures phase <= PhaseBound ==> r == phase
    ensures PhaseBound < phase ==> 0.0 <= r < TwoPi
  {
    if PhaseBound < phase then TruncatingRemainder(phase) else phase
  }

  /** The wrap never moves the grating: the wrapped phase is congruent to the
      unwrapped one. */
  lemma WrapSameAngle(phase: real)
    ensures SameAngle(Wrap(phase), phase)
  {
    if PhaseBound < phase {
      TruncatingRemainderSameAngle(phase);
    } else {
      assert Wrap(phase) - phase == Turns(0);
    }
  }

  // ---------------------------------------------------------------------
  // One step

  /** The phase integrator: with drift off the phase is kept as it is (and is
      not wrapped); with drift on it moves by velocity times dt and is then
      wrapped. */
  function Advance(phase: real, dt: real, driftEnabled: bool, phaseVelocity: real): (r: real)
    ensures !driftEnabled ==> r == phase
    ensures driftEnabled ==> r <= PhaseBound
    ensures driftEnabled && phase + phaseVelocity * dt <= PhaseBound ==> r == phase + phaseVelocity * dt
    ensures driftEnabled && PhaseBound < phase + phaseVelocity * dt ==> 0.0 <= r < TwoPi
  {
    if driftEnabled then Wrap(phase + phaseVelocity * dt) else phase
  }

  /** With drift on, the phase integrator is the wrap of the moved phase. */
  lemma AdvanceDrifting(phase: real, dt: real, phaseVelocity: real, moved: real)
    requires moved == phase + phaseVelocity * dt
    ensures Advance(phase, dt, true, phaseVelocity) == Wrap(moved)
  {
  }

  /** The renderer's private state: the phase accumulator and the time of the
      last rendered frame. */
  datatype PhaseState = PhaseState(phase: real, lastTime: Option<real>)

  /** The state a freshly initialised renderer starts in. */
  const InitialState: PhaseState := PhaseState(0.0, None)

  /** The phase change a frame asks for before any wrap: velocity times dt
      with drift on, nothing with drift off. */
  function Drift(lastTime: Option<real>, p: Parameters, now: real): real
  {
    if p.driftEnabled then p.phaseVelocity * TimeStep(lastTime, now) else 0.0
  }

  /** The state change of one rendered frame at time `now`. The timestamp is
      recorded whether or not drift is on; the phase is frozen with drift
      off; on the first frame dt is 0, so a phase within the bound does not
      move even with drift on; and the bound on the phase is kept. */
  function Step(s: PhaseState, p: Parameters, now: real): (t: PhaseState)
    ensures t.lastTime == Some(now)
    ensures !p.driftEnabled ==> t.phase == s.phase
    ensures s.lastTime == None && s.phase <= PhaseBound ==> t.phase == s.phase
    ensures p.driftEnabled ==> t.phase <= PhaseBound
    ensures s.phase <= PhaseBound ==> t.phase <= PhaseBound
  {
    PhaseState(Advance(s.phase, TimeStep(s.lastTime, now), p.driftEnabled, p.phaseVelocity), Some(now))
  }

  /** With drift on, the new phase is the wrapped sum of the old phase and
      the requested drift. */
  lemma StepDrifting(s: PhaseState, p: Parameters, now: real)
    requires p.driftEnabled
    ensures Step(s, p, now).phase == Wrap(s.phase + Drift(s.lastTime, p, now))
  {
    var dt := TimeStep(s.lastTime, now);
    AdvanceDrifting(s.phase, dt, p.phaseVelocity, s.phase + Drift(s.lastTime, p, now));
  }

  /** The new phase is congruent to the old phase plus the requested drift. */
  lemma StepSameAngle(s: PhaseState, p: Parameters, now: real)
    ensures SameAngle(Step(s, p, now).phase, s.phase + Drift(s.lastTime, p, now))
  {
    var moved := s.phase + Drift(s.lastTime, p, now);
    if p.driftEnabled {
      StepDrifting(s, p, now);
      WrapSameAngle(moved);
    } else {
      assert s.phase - moved == Turns(0);
    }
  }

  /** Re-enabling drift integrates only the time since the last rendered
      frame, even when that frame had drift off: frames rendered with drift
      off still move the timestamp forward. */
  lemma DriftResumesFromLastFrame(s: PhaseState, off: Parameters, on: Parameters, t1: real, t2: real)
    requires !off.driftEnabled && on.driftEnabled
    ensures Step(s, off, t1).phase == s.phase
    ensures Drift(Step(s, off, t1).lastTime, on, t2) == on.phaseVelocity * (t2 - t1)
  {
  }

  // ---------------------------------------------------------------------
  // Sequences of rendered frames

  /** One rendered frame: its timestamp and the parameter snapshot it read. */
  datatype Frame = Frame(now: real, params: Parameters)

  /** The state after rendering the given frames in order. */
  function Run(s: PhaseState, frames: seq<Frame>): PhaseState
    decreases |frames|
  {
    if frames == [] then s else Run(Step(s, frames[0].params, frames[0].now), frames[1..])
  }

  /** The total drift the frames ask for, without any wrapping. */
  function Unwrapped(lastTime: Option<real>, frames: seq<Frame>): real
    decreases |frames|
  {
    if frames == [] then 0.0
    else Drift(lastTime, frames[0].params, frames[0].now) + Unwrapped(Some(frames[0].now), frames[1..])
  }

  /** Every frame drifts at the velocity v. */
  ghost predicate DriftingAt(frames: seq<Frame>, v: real)
  {
    forall i :: 0 <= i < |frames| ==> frames[i].params.driftEnabled && frames[i].params.phaseVelocity == v
  }

  /** No frame drifts. */
  ghost predicate DriftOff(frames: seq<Frame>)
  {
    forall i :: 0 <= i < |frames| ==> !frames[i].params.driftEnabled
  }

  /** No frame drifts backwards. */
  ghost predicate ForwardDrift(frames: seq<Frame>)
  {
    forall i :: 0 <= i < |frames| ==> 0.0 <= frames[i].params.phaseVelocity
  }

  /** The timestamps never decrease, starting from the last rendered one. */
  ghost predicate Chronological(lastTime: Option<real>, frames: seq<Frame>)
  {
    (lastTime.Some? && frames != [] ==> lastTime.value <= frames[0].now) &&
    forall i :: 0 <= i < |frames| - 1 ==> frames[i].now <= frames[i + 1].now
  }

  /** Invariant: the bound on the phase holds after every frame. Since the
      renderer starts at phase 0, its phase never exceeds 10 000. */
  lemma {:induction false} RunKeepsBound(s: PhaseState, frames: seq<Frame>)
    requires s.phase <= PhaseBound
    ensures Run(s, frames).phase <= PhaseBound
    decreases |frames|
  {
    if frames != [] {
      RunKeepsBound(Step(s, frames[0].params, frames[0].now), frames[1..]);
    }
  }

  /** After a run the recorded timestamp is that of its last frame. */
  lemma {:induction false} RunRecordsLastTime(s: PhaseState, frames: seq<Frame>)
    requires frames != []
    ensures Run(s, frames).lastTime == Some(frames[|frames| - 1].now)
    decreases |frames|
  {
    if |frames| > 1 {
      RunRecordsLastTime(Step(s, frames[0].params, frames[0].now), frames[1..]);
    }
  }

  /** With drift off throughout, the phase is frozen, however large it is. */
  lemma {:induction false} RunFrozen(s: PhaseState, frames: seq<Frame>)
    requires DriftOff(frames)
    ensures Run(s, frames).phase == s.phase
    decreases |frames|
  {
    if frames != [] {
      RunFrozen(Step(s, frames[0].params, frames[0].now), frames[1..]);
    }
  }

  /** Wrapping never causes a visible jump: after any run the phase is
      congruent modulo 2π to the start phase plus the total unwrapped drift. */
  lemma {:induction false} RunSameAngle(s: PhaseState, frames: seq<Frame>)
    ensures SameAngle(Run(s, frames).phase, s.phase + Unwrapped(s.lastTime, frames))
    decreases |frames|
  {
    if frames == [] {
      assert s.phase - (s.phase + 0.0) == Turns(0);
    } else {
      var f := frames[0];
      var t := Step(s, f.params, f.now);
      RunSameAngle(t, frames[1..]);
      StepSameAngle(s, f.params, f.now);
      // t.phase is congruent to s.phase + the first frame's drift
      SameAngleShift(t.phase, s.phase + Drift(s.lastTime, f.params, f.now), Unwrapped(t.lastTime, frames[1..]));
      SameAngleTransitive(Run(t, frames[1..]).phase, t.phase + Unwrapped(t.lastTime, frames[1..]),
                          s.phase + Drift(s.lastTime, f.params, f.now) + Unwrapped(t.lastTime, frames[1..]));
    }
  }

  /** With drift on at a constant velocity v, the total unwrapped drift after
      a rendered frame at t0 telescopes to v times the time elapsed since t0. */
  lemma {:induction false} UnwrappedTelescopes(t0: real, frames: seq<Frame>, v: real)
    requires frames != [] && DriftingAt(frames, v)
    ensures Unwrapped(Some(t0), frames) == v * (frames[|frames| - 1].now - t0)
    decreases |frames|
  {
    var f, rest := frames[0], frames[1..];
    var last := frames[|frames| - 1].now;
    if rest == [] {
      assert last == f.now;
    } else {
      assert rest[|rest| - 1].now == last;
      assert DriftingAt(rest, v);
      UnwrappedTelescopes(f.now, rest, v);
      Telescope(v, t0, f.now, last);
    }
  }

  lemma Telescope(v: real, a: real, b: real, c: real)
    ensures v * (b - a) + v * (c - b) == v * (c - a)
  {
  }

  /** From the first frame on (no timestamp yet), constant drift integrates
      exactly the time between the first and the last frame: the first frame
      contributes nothing. */
  lemma FirstRunTelescopes(frames: seq<Frame>, v: real)
    requires frames != [] && DriftingAt(frames, v)
    ensures Unwrapped(None, frames) == v * (frames[|frames| - 1].now - frames[0].now)
  {
    var f, rest := frames[0], frames[1..];
    if rest == [] {
      assert v * (f.now - f.now) == 0.0;
    } else {
      assert rest[|rest| - 1].now == frames[|frames| - 1].now;
      assert DriftingAt(rest, v);
      UnwrappedTelescopes(f.now, rest, v);
    }
  }

  /** Dropping the first frame keeps the timestamps in order. */
  lemma ChronologicalTail(lastTime: Option<real>, frames: seq<Frame>)
    requires frames != [] && Chronological(lastTime, frames)
    ensures Chronological(Some(frames[0].now), frames[1..])
  {
    var rest := frames[1..];
    forall i | 0 <= i < |rest| - 1
      ensures rest[i].now <= rest[i + 1].now
    {
      assert rest[i] == frames[i + 1] && rest[i + 1] == frames[i + 2];
    }
    if rest != [] {
      assert rest[0] == frames[1];
    }
  }

  /** With forward drift and a clock that does not run backwards, no frame
      asks for a negative phase change. */
  lemma {:induction false} UnwrappedNonNegative(lastTime: Option<real>, frames: seq<Frame>)
    requires ForwardDrift(frames) && Chronological(lastTime, frames)
    ensures 0.0 <= Unwrapped(lastTime, frames)
    decreases |frames|
  {
    if frames != [] {
      var f := frames[0];
      DriftNonNegative(lastTime, f.params, f.now);
      ChronologicalTail(lastTime, frames);
      UnwrappedNonNegative(Some(f.now), frames[1..]);
    }
  }

  lemma DriftNonNegative(lastTime: Option<real>, p: Parameters, now: real)
    requires 0.0 <= p.phaseVelocity
    requires lastTime.Some? ==> lastTime.value <= now
    ensures 0.0 <= Drift(lastTime, p, now)
  {
    var dt := TimeStep(lastTime, now);
    if p.driftEnabled {
      assert 0.0 <= p.phaseVelocity * dt;
    }
  }

  /** A frame whose drift keeps the phase within the bound is not wrapped. */
  lemma StepWithoutWrap(s: PhaseState, p: Parameters, now: real)
    requires s.phase + Drift(s.lastTime, p, now) <= PhaseBound
    ensures Step(s, p, now).phase == s.phase + Drift(s.lastTime, p, now)
  {
    if p.driftEnabled {
      var dt := TimeStep(s.lastTime, now);
      assert Drift(s.lastTime, p, now) == p.phaseVelocity * dt;
      assert Step(s, p, now).phase == Advance(s.phase, dt, true, p.phaseVelocity);
    }
  }

  /** While the accumulated phase stays within the bound, no wrap happens and
      the phase is exactly the start phase plus the integrated drift. */
  lemma {:induction false} RunWithoutWrap(s: PhaseState, frames: seq<Frame>)
    requires ForwardDrift(frames) && Chronological(s.lastTime, frames)
    requires s.phase + Unwrapped(s.lastTime, frames) <= PhaseBound
    ensures Run(s, frames).phase == s.phase + Unwrapped(s.lastTime, frames)
    decreases |frames|
  {
    if frames != [] {
      var f := frames[0];
      var t := Step(s, f.params, f.now);
      ChronologicalTail(s.lastTime, frames);
      UnwrappedNonNegative(t.lastTime, frames[1..]);
      DriftNonNegative(s.lastTime, f.params, f.now);
      StepWithoutWrap(s, f.params, f.now);
      RunWithoutWrap(t, frames[1..]);
    }
  }

  /** One second of 60 Hz refresh callbacks drifting at 2π rad/s, starting
      from a fresh renderer: at 61 callbacks (the first has dt = 0 and the
      other 60 each add 1/60 s) the phase is exactly one turn, which draws
      the same grating as phase 0. */
  lemma OneSecondAtSixtyHertz(p: Parameters)
    requires p.driftEnabled && p.phaseVelocity == TwoPi
    ensures Run(InitialState, SixtyHertzFrames(p)).phase == TwoPi
    ensures SameAngle(Run(InitialState, SixtyHertzFrames(p)).phase, 0.0)
  {
    var frames := SixtyHertzFrames(p);
    assert DriftingAt(frames, TwoPi);
    FirstRunTelescopes(frames, TwoPi);
    assert Unwrapped(None, frames) == TwoPi;
    RunWithoutWrap(InitialState, frames);
    assert TwoPi - 0.0 == Turns(1);
  }

  /** Callbacks at t = 0, 1/60, ..., 60/60 seconds, all with the snapshot p. */
  function SixtyHertzFrames(p: Parameters): (frames: seq<Frame>)
    ensures |frames| == 61
    ensures frames[0].now == 0.0 && frames[60].now == 1.0
    ensures forall i :: 0 <= i < |frames| ==> frames[i].params == p
    ensures forall i :: 0 <= i < |frames| - 1 ==> frames[i].now <= frames[i + 1].now
  {
    seq(61, i requires 0 <= i < 61 => Frame(i as real / 60.0, p))
  }
}
