/** One simulation step of the street scene, `updateScene(delta)`: the camera
    drift clock, the walker on its treadmill and its walk cycle, the rain's
    clock and spin, the steam plumes, the neon pulse, the scrolling street
    textures and the street-lamp flicker. `SceneState` is the value of
    everything a step changes; `Tick` is the step as a function, and the
    classes below perform it in place. */
module Animation {
  import opened JsNumbers

  // ----------------------------------------------------------------- walker

  /** `group.position.set(0, 0, 4)` in createWalker. */
  const WalkerStartZ: real := 4.0
  /** Where the walker reappears once past the far end of the street. */
  const WalkerResetZ: real := 10.0
  const StreetEndZ: real := -40.0
  const WalkSpeed: real := 0.85
  /** The walk cycle's phase advances 3.2 radians per second. */
  const StepRate: real := 3.2

  /** The x rotations of the legs and arms. */
  datatype Limbs = Limbs(legLeft: real, legRight: real, armLeft: real, armRight: real)

  /** The walker group: its position along the street and across it, the
      walk-cycle phase kept in `userData` (absent until the first cycle) and
      the limb rotations. */
  datatype WalkerState = WalkerState(z: real, x: real, phase: Option<real>, limbs: Limbs)

  /** `userData.phase || 0`: an absent phase counts as 0. */
  function PhaseOrZero(p: Option<real>): real
  {
    match p
    case None => 0.0
    case Some(v) => v
  }

  /** The treadmill: step towards the far end; once past it, start again at
      exactly `WalkerResetZ`. For a step that does not move backwards the walker
      never leaves [StreetEndZ, WalkerResetZ]. */
  function Treadmill(z: real, dt: real): (z': real)
    ensures 0.0 <= dt && StreetEndZ <= z <= WalkerResetZ ==> StreetEndZ <= z' <= WalkerResetZ
    ensures z' == WalkerResetZ || (StreetEndZ <= z' && z' == z - dt * WalkSpeed)
    ensures StreetEndZ <= z - dt * WalkSpeed ==> z' == z - dt * WalkSpeed
  {
    var stepped := z - dt * WalkSpeed;
    if stepped < StreetEndZ then WalkerResetZ else stepped
  }

  /** The limb rotations at a phase: a stride and its opposite half-cycle,
      the arms swinging against the legs at 0.6 of their amplitude. */
  function Pose(m: JsMath, phase: real): Limbs
  {
    var stride := m.sin(phase) * 0.3;
    var opposite := m.sin(phase + Pi) * 0.3;
    Limbs(stride, opposite, opposite * 0.6, stride * 0.6)
  }

  /** The sideways sway of the walker at a phase. */
  function Sway(m: JsMath, phase: real): real
  {
    m.sin(phase * 0.5) * 0.22
  }

  /** The limbs swing within 0.3 radians (the arms within 0.18), each arm
      opposite to the leg on its side, and the sway stays within 0.22. */
  lemma PoseBounds(m: JsMath, phase: real)
    requires Sound(m)
    ensures var l := Pose(m, phase);
            && -0.3 <= l.legLeft <= 0.3 && -0.3 <= l.legRight <= 0.3
            && -0.18 <= l.armLeft <= 0.18 && -0.18 <= l.armRight <= 0.18
            && l.armLeft == l.legRight * 0.6 && l.armRight == l.legLeft * 0.6
    ensures -0.22 <= Sway(m, phase) <= 0.22
  {
    assert -1.0 <= m.sin(phase) <= 1.0;
    assert -1.0 <= m.sin(phase + Pi) <= 1.0;
    assert -1.0 <= m.sin(phase * 0.5) <= 1.0;
  }

  /** `walkCycle(walker, delta)`: advance the phase, then pose the limbs and
      sway for the new phase. The position along the street is left alone. */
  function WalkStep(m: JsMath, w: WalkerState, dt: real): (w': WalkerState)
    ensures w'.z == w.z
    ensures w'.phase.Some? && w'.phase.value == PhaseOrZero(w.phase) + dt * StepRate
  {
    var phase := PhaseOrZero(w.phase) + dt * StepRate;
    WalkerState(w.z, Sway(m, phase), Some(phase), Pose(m, phase))
  }

  class Walker {
    var z: real
    var x: real
    var phase: Option<real>
    var legLeft: real
    var legRight: real
    var armLeft: real
    var armRight: real

    function State(): WalkerState
      reads this
    {
      WalkerState(z, x, phase, Limbs(legLeft, legRight, armLeft, armRight))
    }

    /** createWalker: placed at z = 4 with no phase and unrotated limbs. */
    constructor ()
      ensures State() == WalkerState(WalkerStartZ, 0.0, None, Limbs(0.0, 0.0, 0.0, 0.0))
    {
      z := WalkerStartZ;
      x := 0.0;
      phase := None;
      legLeft, legRight, armLeft, armRight := 0.0, 0.0, 0.0, 0.0;
    }

    /** The `walkCycle` closure. */
    method WalkCycle(m: JsMath, dt: real)
      modifies this
      ensures State() == WalkStep(m, old(State()), dt)
    {
      var p := PhaseOrZero(phase) + dt * StepRate;
      phase := Some(p);
      var stride := m.sin(p) * 0.3;
      var opposite := m.sin(p + Pi) * 0.3;
      legLeft := stride;
      legRight := opposite;
      armLeft := opposite * 0.6;
      armRight := stride * 0.6;
      x := m.sin(p * 0.5) * 0.22;
    }

    /** The walker's part of `updateScene`: the treadmill step along the
        street, then the walk cycle. */
    method Walk(m: JsMath, dt: real)
      modifies this
      ensures State() == WalkStep(m, old(State()).(z := Treadmill(old(z), dt)), dt)
    {
      z := z - dt * WalkSpeed;
      if z < StreetEndZ {
        z := WalkerResetZ;
      }
      WalkCycle(m, dt);
    }
  }

  // ------------------------------------------------------------------- rain

  /** The rain points: their spin about the vertical axis and the `uTime`
      uniform that drives the fall in the vertex shader. The points' `update`
      closure only advances `uTime`; `UpdateScene` performs it in line. */
  class RainSystem {
    var rotationY: real
    var uTime: real

    constructor ()
      ensures rotationY == 0.0 && uTime == 0.0
    {
      rotationY := 0.0;
      uTime := 0.0;
    }
  }

  // ------------------------------------------------------------------ steam

  /** A steam sprite: its random phase offset, its height and its opacity. */
  datatype Plume = Plume(offset: real, y: real, opacity: real)

  /** createSteamPlumes: each sprite starts at height 0.1 with opacity 0.6. */
  function InitialPlume(offset: real): Plume
  {
    Plume(offset, 0.1, 0.6)
  }

  /** A plume's `update` at wall-clock time `now` (milliseconds): height and
      opacity follow two sines of the same phase. */
  function PlumeAt(m: JsMath, p: Plume, now: real): (p': Plume)
    ensures p'.offset == p.offset
  {
    var t := now * 0.0006 + p.offset;
    Plume(p.offset, 0.1 + m.sin(t) * 0.4, 0.32 + m.sin(t * 1.4) * 0.12)
  }

  /** A plume bobs within [-0.3, 0.5] and its opacity within [0.2, 0.44]. */
  lemma PlumeBounds(m: JsMath, p: Plume, now: real)
    requires Sound(m)
    ensures var p' := PlumeAt(m, p, now);
            -0.3 <= p'.y <= 0.5 && 0.2 <= p'.opacity <= 0.44
  {
    var t := now * 0.0006 + p.offset;
    assert -1.0 <= m.sin(t) <= 1.0 && -1.0 <= m.sin(t * 1.4) <= 1.0;
  }

  /** `steamGroup.children.forEach(plume => plume.userData.update(delta))`. */
  function DriftPlumes(m: JsMath, ps: seq<Plume>, now: real): (ps': seq<Plume>)
    ensures |ps'| == |ps|
    ensures forall k :: 0 <= k < |ps| ==> ps'[k] == PlumeAt(m, ps[k], now)
  {
    seq(|ps|, k requires 0 <= k < |ps| => PlumeAt(m, ps[k], now))
  }

  // ------------------------------------------------------------------- neon

  /** A child of the neon group: whether it pulses, at what angular speed,
      and its material's emissive intensity (absent on the basic and sprite
      materials until the first pulse sets it). */
  datatype NeonChild = NeonChild(pulse: bool, speed: real, emissiveIntensity: Option<real>)

  /** The sign, the bar (created with emissive intensity 1.8) and the flare. */
  const InitialNeon: seq<NeonChild> :=
    [NeonChild(true, 1.4, None), NeonChild(true, 0.9, Some(1.8)), NeonChild(true, 1.6, None)]

  /** The intensity of a child pulsing at `speed` at clock time `time`. */
  function Glow(m: JsMath, time: real, speed: real): real
  {
    0.5 + m.sin(time * speed) * 0.4
  }

  /** The pulse of one child at clock time `time`: only pulsing children are
      touched, and only their intensity. */
  function Pulse(m: JsMath, c: NeonChild, time: real): (c': NeonChild)
    ensures c'.pulse == c.pulse && c'.speed == c.speed
    ensures !c.pulse ==> c' == c
    ensures c.pulse ==> c'.emissiveIntensity.Some?
  {
    if c.pulse then c.(emissiveIntensity := Some(Glow(m, time, c.speed)))
    else c
  }

  /** A pulsed intensity lies in [0.1, 0.9]. */
  lemma PulseBounds(m: JsMath, c: NeonChild, time: real)
    requires Sound(m) && c.pulse
    ensures 0.1 <= Pulse(m, c, time).emissiveIntensity.value <= 0.9
  {
    assert -1.0 <= m.sin(time * c.speed) <= 1.0;
  }

  /** `neonElements.children.forEach(...)`. */
  function PulseAll(m: JsMath, cs: seq<NeonChild>, time: real): (cs': seq<NeonChild>)
    ensures |cs'| == |cs|
    ensures forall k :: 0 <= k < |cs| ==> cs'[k] == Pulse(m, cs[k], time)
  {
    seq(|cs|, k requires 0 <= k < |cs| => Pulse(m, cs[k], time))
  }

  /** Pulsing twice at the same clock time is pulsing once: the intensity
      depends on the time and the child's speed only, not on the previous
      intensity. All the steps of one frame see the same clock time. */
  lemma PulseAllIdempotent(m: JsMath, cs: seq<NeonChild>, time: real)
    ensures PulseAll(m, PulseAll(m, cs, time), time) == PulseAll(m, cs, time)
  {
    var once := PulseAll(m, cs, time);
    var twice := PulseAll(m, once, time);
    assert |twice| == |once|;
    forall k | 0 <= k < |cs|
      ensures twice[k] == once[k]
    {
      assert once[k] == Pulse(m, cs[k], time);
      assert twice[k] == Pulse(m, once[k], time);
    }
  }

  // ------------------------------------------------------------------ lamps

  /** A street lamp group. Its children are the pole, the head mesh, the
      spot light and the light's target: `head` stands for an `intensity`
      property set on the head mesh (a mesh has none, so it is absent until set
      and has no effect), `light` for the spot light's intensity, created at
      0.7. */
  datatype StreetLamp = StreetLamp(head: Option<real>, light: real)

  /** createLights: five rows of a left and a right lamp. */
  const LampCount: nat := 10
  const InitialLamp: StreetLamp := StreetLamp(None, 0.7)

  /** The intensity meant for lamp `idx` at wall-clock time `now`. */
  function Flicker(m: JsMath, now: real, idx: nat): real
  {
    0.7 + m.sin(now * 0.0008 + idx as real) * 0.15
  }

  /** The flicker stays within [0.55, 0.85]. */
  lemma FlickerBounds(m: JsMath, now: real, idx: nat)
    requires Sound(m)
    ensures 0.55 <= Flicker(m, now, idx) <= 0.85
  {
    assert -1.0 <= m.sin(now * 0.0008 + idx as real) <= 1.0;
  }

  /** The light rig's `update` as written: it stores the flicker on
      `children[1]`, the head mesh, so no light changes. */
  function FlickerAsWritten(m: JsMath, lamps: seq<StreetLamp>, now: real): (lamps': seq<StreetLamp>)
    ensures |lamps'| == |lamps|
    ensures forall k :: 0 <= k < |lamps| ==> lamps'[k].light == lamps[k].light
  {
    seq(|lamps|, k requires 0 <= k < |lamps| => lamps[k].(head := Some(Flicker(m, now, k))))
  }

  /** The light rig's `update` as intended: the flicker goes to the spot light. */
  function FlickerLights(m: JsMath, lamps: seq<StreetLamp>, now: real): (lamps': seq<StreetLamp>)
    ensures |lamps'| == |lamps|
    ensures forall k :: 0 <= k < |lamps| ==> lamps'[k].head == lamps[k].head
  {
    seq(|lamps|, k requires 0 <= k < |lamps| => lamps[k].(light := Flicker(m, now, k)))
  }

  /** As written, every spot light keeps its intensity whatever the time, and
      differs from the intended flicker whenever that flicker's sine is not
      zero. */
  lemma FlickerMissesLights(m: JsMath, lamps: seq<StreetLamp>, now: real, k: nat)
    requires k < |lamps| && lamps[k].light == 0.7
    ensures FlickerAsWritten(m, lamps, now)[k].light == 0.7
    ensures m.sin(now * 0.0008 + k as real) != 0.0 ==>
              FlickerAsWritten(m, lamps, now)[k].light != FlickerLights(m, lamps, now)[k].light
  {
    assert FlickerAsWritten(m, lamps, now)[k] == lamps[k].(head := Some(Flicker(m, now, k)));
    assert FlickerLights(m, lamps, now)[k] == lamps[k].(light := Flicker(m, now, k));
  }

  /** With the flicker on the lights, every light lies in [0.55, 0.85]. */
  lemma FlickerLightsBounds(m: JsMath, lamps: seq<StreetLamp>, now: real)
    requires Sound(m)
    ensures forall k :: 0 <= k < |lamps| ==> 0.55 <= FlickerLights(m, lamps, now)[k].light <= 0.85
  {
    forall k | 0 <= k < |lamps|
      ensures 0.55 <= FlickerLights(m, lamps, now)[k].light <= 0.85
    {
      assert FlickerLights(m, lamps, now)[k] == lamps[k].(light := Flicker(m, now, k));
      FlickerBounds(m, now, k);
    }
  }

  // ----------------------------------------------------------------- camera

  /** The point the camera eases towards at drift time `drift`: a slow sway
      and bob around (3.8, 1.72, 5.4). */
  function CameraTarget(m: JsMath, drift: real): Vec3
  {
    Vec3(3.8 + m.sin(drift * 0.35) * 0.18, 1.72 + m.sin(drift * 0.7) * 0.05, 5.4)
  }

  /** The target never leaves the box [3.62, 3.98] x [1.67, 1.77] x {5.4}. */
  lemma CameraTargetBounds(m: JsMath, drift: real)
    requires Sound(m)
    ensures var c := CameraTarget(m, drift);
            3.62 <= c.x <= 3.98 && 1.67 <= c.y <= 1.77 && c.z == 5.4
  {
    assert -1.0 <= m.sin(drift * 0.35) <= 1.0 && -1.0 <= m.sin(drift * 0.7) <= 1.0;
  }

  /** At drift 0 both sines vanish: the target is the rest point
      (3.8, 1.72, 5.4) itself. */
  lemma CameraTargetAtRest(m: JsMath)
    requires Sound(m)
    ensures CameraTarget(m, 0.0) == Vec3(3.8, 1.72, 5.4)
  {
    assert 0.0 * 0.35 == 0.0 && 0.0 * 0.7 == 0.0;
  }

  /** The point the camera looks at: 1.8 ahead of the walker at eye height. */
  function LookTarget(walkerZ: real): Vec3
  {
    Vec3(0.0, 1.6, walkerZ - 1.8)
  }

  /** While the walker is on the street the camera looks along its centre
      line at eye height, never past [-41.8, 8.2]. */
  lemma LookTargetOnStreet(s: SceneState)
    requires OnStreet(s)
    ensures var t := LookTarget(s.walker.z);
            t.x == 0.0 && t.y == 1.6 && -41.8 <= t.z <= 8.2 && t.z < s.walker.z
  {
  }

  // ------------------------------------------------------------------ scene

  /** Everything one step changes. */
  datatype SceneState = SceneState(
    cameraDrift: real,
    walker: WalkerState,
    rainRotationY: real,
    rainTime: real,
    plumes: seq<Plume>,
    neon: seq<NeonChild>,
    mapOffsetY: real,
    normalOffsetY: real,
    roughnessOffsetY: real,
    lamps: seq<StreetLamp>)

  /** The scene as built: three plumes with their random offsets, the neon
      group, ten lamps, every clock and offset at 0. */
  function InitialScene(plumeOffsets: seq<real>): (s: SceneState)
    ensures OnStreet(s) && s.walker.phase.None?
    ensures |s.plumes| == |plumeOffsets| && |s.neon| == 3 && |s.lamps| == LampCount
  {
    SceneState(0.0, WalkerState(WalkerStartZ, 0.0, None, Limbs(0.0, 0.0, 0.0, 0.0)), 0.0, 0.0,
               seq(|plumeOffsets|, k requires 0 <= k < |plumeOffsets| => InitialPlume(plumeOffsets[k])),
               InitialNeon, 0.0, 0.0, 0.0, seq(LampCount, k => InitialLamp))
  }

  /** `updateScene(delta)` with the clock reading `time` (seconds) and the
      wall-clock reading `now` (milliseconds). */
  function Tick(m: JsMath, s: SceneState, dt: real, time: real, now: real): SceneState
  {
    SceneState(
      s.cameraDrift + dt,
      WalkStep(m, s.walker.(z := Treadmill(s.walker.z, dt)), dt),
      s.rainRotationY + dt * 0.02,
      s.rainTime + dt,
      DriftPlumes(m, s.plumes, now),
      PulseAll(m, s.neon, time),
      s.mapOffsetY - dt * 0.08,
      s.normalOffsetY - dt * 0.04,
      s.roughnessOffsetY - dt * 0.06,
      FlickerLights(m, s.lamps, now))
  }

  /** n steps of the same length, all at the same clock and wall-clock
      readings (as within one frame). */
  function TickN(m: JsMath, s: SceneState, n: nat, dt: real, time: real, now: real): SceneState
  {
    if n == 0 then s else Tick(m, TickN(m, s, n - 1, dt, time, now), dt, time, now)
  }

  /** The parts of the scene that move at a constant rate per second of
      simulated time. */
  datatype Clocks = Clocks(cameraDrift: real, rainTime: real, rainRotationY: real, walkPhase: real,
                           mapOffsetY: real, normalOffsetY: real, roughnessOffsetY: real)

  function ClocksOf(s: SceneState): Clocks
  {
    Clocks(s.cameraDrift, s.rainTime, s.rainRotationY, PhaseOrZero(s.walker.phase),
           s.mapOffsetY, s.normalOffsetY, s.roughnessOffsetY)
  }

  /** Every clock advanced by `elapsed` seconds at its own rate: the camera
      drift and the rain clock by 1, the rain's spin by 0.02, the walk phase by
      3.2, and the three street textures scroll back by 0.08, 0.04 and 0.06. */
  function Advance(c: Clocks, elapsed: real): Clocks
  {
    Clocks(c.cameraDrift + elapsed, c.rainTime + elapsed, c.rainRotationY + elapsed * 0.02,
           c.walkPhase + elapsed * StepRate, c.mapOffsetY - elapsed * 0.08,
           c.normalOffsetY - elapsed * 0.04, c.roughnessOffsetY - elapsed * 0.06)
  }

  /** Advancing in two stretches is advancing by their sum. */
  lemma AdvanceAdds(c: Clocks, a: real, b: real)
    ensures Advance(Advance(c, a), b) == Advance(c, a + b)
  {
  }

  /** One step of length dt advances the clocks by dt. */
  lemma TickClocks(m: JsMath, s: SceneState, dt: real, time: real, now: real)
    ensures ClocksOf(Tick(m, s, dt, time, now)) == Advance(ClocksOf(s), dt)
  {
  }

  /** The clocks after n advances of dt each. */
  function AdvanceN(c: Clocks, n: nat, dt: real): Clocks
  {
    if n == 0 then c else Advance(AdvanceN(c, n - 1, dt), dt)
  }

  /** n advances of dt are one advance of n * dt. */
  lemma {:induction false} AdvanceNIsAdvance(c: Clocks, n: nat, dt: real)
    ensures AdvanceN(c, n, dt) == Advance(c, n as real * dt)
  {
    if n > 0 {
      AdvanceNIsAdvance(c, n - 1, dt);
      AdvanceAdds(c, (n - 1) as real * dt, dt);
      assert (n - 1) as real * dt + dt == n as real * dt;
    }
  }

  /** n steps of length dt advance the clocks by n * dt: no step is lost or
      counted twice. */
  lemma {:induction false} TickNClocks(m: JsMath, s: SceneState, n: nat, dt: real, time: real, now: real)
    ensures ClocksOf(TickN(m, s, n, dt, time, now)) == Advance(ClocksOf(s), n as real * dt)
  {
    TickNAdvances(m, s, n, dt, time, now);
    AdvanceNIsAdvance(ClocksOf(s), n, dt);
  }

  lemma {:induction false} TickNAdvances(m: JsMath, s: SceneState, n: nat, dt: real, time: real, now: real)
    ensures ClocksOf(TickN(m, s, n, dt, time, now)) == AdvanceN(ClocksOf(s), n, dt)
  {
    if n > 0 {
      var before := TickN(m, s, n - 1, dt, time, now);
      TickNAdvances(m, s, n - 1, dt, time, now);
      TickClocks(m, before, dt, time, now);
    }
  }

  /** The walker is on the street: between its far end and the reset point. */
  ghost predicate OnStreet(s: SceneState)
  {
    StreetEndZ <= s.walker.z <= WalkerResetZ
  }

  /** Forward steps keep the walker on the street, whatever the number. */
  lemma {:induction false} TickNKeepsWalkerOnStreet(m: JsMath, s: SceneState, n: nat, dt: real, time: real, now: real)
    requires OnStreet(s) && 0.0 <= dt
    ensures OnStreet(TickN(m, s, n, dt, time, now))
  {
    if n > 0 {
      TickNKeepsWalkerOnStreet(m, s, n - 1, dt, time, now);
    }
  }

  /** Steps keep the structure of the scene: the number of plumes, neon
      children and lamps, the plumes' offsets and which children pulse at what
      speed. */
  lemma {:induction false} TickNKeepsShape(m: JsMath, s: SceneState, n: nat, dt: real, time: real, now: real)
    ensures var s' := TickN(m, s, n, dt, time, now);
            && |s'.plumes| == |s.plumes| && |s'.neon| == |s.neon| && |s'.lamps| == |s.lamps|
            && (forall k :: 0 <= k < |s.plumes| ==> s'.plumes[k].offset == s.plumes[k].offset)
            && (forall k :: 0 <= k < |s.neon| ==>
                  s'.neon[k].pulse == s.neon[k].pulse && s'.neon[k].speed == s.neon[k].speed)
  {
    if n > 0 {
      TickNKeepsShape(m, s, n - 1, dt, time, now);
    }
  }

  /** After at least one step, every pulsing neon child glows in [0.1, 0.9],
      every plume is within its bounds and every lamp within [0.55, 0.85]. */
  lemma TickBounds(m: JsMath, s: SceneState, dt: real, time: real, now: real)
    requires Sound(m)
    ensures var s' := Tick(m, s, dt, time, now);
            && (forall k :: 0 <= k < |s'.neon| && s'.neon[k].pulse ==>
                  s'.neon[k].emissiveIntensity.Some? && 0.1 <= s'.neon[k].emissiveIntensity.value <= 0.9)
            && (forall k :: 0 <= k < |s'.plumes| ==>
                  -0.3 <= s'.plumes[k].y <= 0.5 && 0.2 <= s'.plumes[k].opacity <= 0.44)
            && (forall k :: 0 <= k < |s'.lamps| ==> 0.55 <= s'.lamps[k].light <= 0.85)
  {
    var s' := Tick(m, s, dt, time, now);
    forall k | 0 <= k < |s'.neon| && s'.neon[k].pulse
      ensures s'.neon[k].emissiveIntensity.Some? && 0.1 <= s'.neon[k].emissiveIntensity.value <= 0.9
    {
      PulseBounds(m, s.neon[k], time);
    }
    forall k | 0 <= k < |s'.plumes|
      ensures -0.3 <= s'.plumes[k].y <= 0.5 && 0.2 <= s'.plumes[k].opacity <= 0.44
    {
      PlumeBounds(m, s.plumes[k], now);
    }
    FlickerLightsBounds(m, s.lamps, now);
  }

  /** The module-level state `updateScene` works on. */
  class Scene {
    var cameraDrift: real
    const walker: Walker
    const rain: RainSystem
    var plumes: seq<Plume>
    var neon: seq<NeonChild>
    var mapOffsetY: real
    var normalOffsetY: real
    var roughnessOffsetY: real
    var lamps: seq<StreetLamp>

    function State(): SceneState
      reads this, walker, rain
    {
      SceneState(cameraDrift, walker.State(), rain.rotationY, rain.uTime, plumes, neon,
                 mapOffsetY, normalOffsetY, roughnessOffsetY, lamps)
    }

    /** The scene as built; the plumes' offsets come from Math.random. */
    constructor (plumeOffsets: seq<real>)
      requires |plumeOffsets| == 3
      requires forall k :: 0 <= k < |plumeOffsets| ==> 0.0 <= plumeOffsets[k] < 2.0 * Pi
      ensures State() == InitialScene(plumeOffsets)
      ensures fresh(walker) && fresh(rain)
    {
      cameraDrift := 0.0;
      walker := new Walker();
      rain := new RainSystem();
      plumes := seq(|plumeOffsets|, k requires 0 <= k < |plumeOffsets| => InitialPlume(plumeOffsets[k]));
      neon := InitialNeon;
      mapOffsetY, normalOffsetY, roughnessOffsetY := 0.0, 0.0, 0.0;
      lamps := seq(LampCount, k => InitialLamp);
    }

    /** `updateScene(delta)`. */
    method UpdateScene(m: JsMath, dt: real, time: real, now: real)
      modifies this, walker, rain
      ensures State() == Tick(m, old(State()), dt, time, now)
    {
      cameraDrift := cameraDrift + dt;
      walker.Walk(m, dt);
      rain.rotationY := rain.rotationY + dt * 0.02;
      rain.uTime := rain.uTime + dt;
      plumes := UpdatePlumes(m, plumes, now);
      neon := PulseChildren(m, neon, time);
      mapOffsetY := mapOffsetY - dt * 0.08;
      normalOffsetY := normalOffsetY - dt * 0.04;
      roughnessOffsetY := roughnessOffsetY - dt * 0.06;
      lamps := UpdateLamps(m, lamps, now);
    }
  }

  /** The steam group's forEach: every plume's `update` at wall-clock time
      `now`. */
  method UpdatePlumes(m: JsMath, plumes: seq<Plume>, now: real) returns (plumes': seq<Plume>)
    ensures plumes' == DriftPlumes(m, plumes, now)
  {
    plumes' := plumes;
    for i := 0 to |plumes|
      invariant |plumes'| == |plumes|
      invariant forall k :: 0 <= k < i ==> plumes'[k] == PlumeAt(m, plumes[k], now)
      invariant forall k :: i <= k < |plumes| ==> plumes'[k] == plumes[k]
    {
      var p := plumes'[i];
      var t := now * 0.0006 + p.offset;
      plumes' := plumes'[i := Plume(p.offset, 0.1 + m.sin(t) * 0.4, 0.32 + m.sin(t * 1.4) * 0.12)];
    }
  }

  /** The neon group's forEach: pulsing children get a new intensity. */
  method PulseChildren(m: JsMath, children: seq<NeonChild>, time: real) returns (children': seq<NeonChild>)
    ensures children' == PulseAll(m, children, time)
  {
    children' := children;
    for i := 0 to |children|
      invariant |children'| == |children|
      invariant forall k :: 0 <= k < i ==> children'[k] == Pulse(m, children[k], time)
      invariant forall k :: i <= k < |children| ==> children'[k] == children[k]
    {
      var child := children'[i];
      if child.pulse {
        children' := children'[i := child.(emissiveIntensity := Some(Glow(m, time, child.speed)))];
      }
    }
  }

  /** The light rig's `update`, with the flicker stored on each lamp's spot
      light. */
  method UpdateLamps(m: JsMath, lamps: seq<StreetLamp>, now: real) returns (lamps': seq<StreetLamp>)
    ensures lamps' == FlickerLights(m, lamps, now)
  {
    lamps' := lamps;
    for idx := 0 to |lamps|
      invariant |lamps'| == |lamps|
      invariant forall k :: 0 <= k < idx ==> lamps'[k] == lamps[k].(light := Flicker(m, now, k))
      invariant forall k :: idx <= k < |lamps| ==> lamps'[k] == lamps[k]
    {
      var intensity := 0.7 + m.sin(now * 0.0008 + idx as real) * 0.15;
      lamps' := lamps'[idx := lamps'[idx].(light := intensity)];
    }
  }
}
