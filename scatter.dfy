/** The seeded geometry fills: the rain particles' start positions and fall
    speeds, and the puddle displacement of the street's vertices. Both draw
    from their own generator in element order. Float32 rounding of the stored
    values is not modelled: the buffers hold reals. */
module Scatter {
  import opened JsNumbers
  import opened Mulberry

  /** Vertex k of a flat position buffer: `getX(k)`, `getY(k)`, `getZ(k)`. */
  function VertexOf(s: seq<real>, k: nat): Vec3
    requires 3 * k + 2 < |s|
  {
    Vec3(s[3 * k], s[3 * k + 1], s[3 * k + 2])
  }

  // ------------------------------------------------------------------- rain

  const RainCount: nat := 12000
  const RainSeed: int := 71237

  /** A rain particle: its start position and its fall speed. */
  datatype Drop = Drop(position: Vec3, speed: real)

  /** The particle built from four consecutive draws, in the order x, y, z,
      speed. */
  function RainDrop(dx: real, dy: real, dz: real, ds: real): Drop
  {
    Drop(Vec3((dx - 0.5) * 20.0, dy * 12.0 + 4.0, (dz - 0.5) * 60.0), ds * 6.0 + 8.0)
  }

  /** Particle k as stored: its position in `positions`, its speed in `speeds`. */
  function DropOf(positions: seq<real>, speeds: seq<real>, k: nat): Drop
    requires 3 * k + 2 < |positions| && k < |speeds|
  {
    Drop(VertexOf(positions, k), speeds[k])
  }

  /** Draws in [0, 1) put every particle in the box x in [-10, 10),
      y in [4, 16), z in [-30, 30), with a speed in [8, 14). */
  lemma RainDropInBox(dx: real, dy: real, dz: real, ds: real)
    requires 0.0 <= dx < 1.0 && 0.0 <= dy < 1.0 && 0.0 <= dz < 1.0 && 0.0 <= ds < 1.0
    ensures var d := RainDrop(dx, dy, dz, ds);
            && -10.0 <= d.position.x < 10.0
            && 4.0 <= d.position.y < 16.0
            && -30.0 <= d.position.z < 30.0
            && 8.0 <= d.speed < 14.0
  {
  }

  /** Particle k of the rain field is in the box: its four draws are
      generator outputs, all in [0, 1). */
  lemma RainFieldInBox(k: nat)
    ensures var d := RainDrop(Draw(RainSeed, 4 * k), Draw(RainSeed, 4 * k + 1),
                              Draw(RainSeed, 4 * k + 2), Draw(RainSeed, 4 * k + 3));
            && -10.0 <= d.position.x < 10.0
            && 4.0 <= d.position.y < 16.0
            && -30.0 <= d.position.z < 30.0
            && 8.0 <= d.speed < 14.0
  {
    RainDropInBox(Draw(RainSeed, 4 * k), Draw(RainSeed, 4 * k + 1),
                  Draw(RainSeed, 4 * k + 2), Draw(RainSeed, 4 * k + 3));
  }

  /** The first n particles are those of the draws in `h`, four per particle. */
  ghost predicate RainPrefix(positions: seq<real>, speeds: seq<real>, h: seq<real>, n: nat)
  {
    && 3 * n <= |positions| && n <= |speeds| && |h| == 4 * n
    && forall k :: 0 <= k < n ==>
         DropOf(positions, speeds, k) == RainDrop(h[4 * k], h[4 * k + 1], h[4 * k + 2], h[4 * k + 3])
  }

  /** Writing particle n from the next four draws extends the filled prefix. */
  lemma RainPrefixStep(positions: seq<real>, speeds: seq<real>, h: seq<real>, n: nat,
                       dx: real, dy: real, dz: real, ds: real,
                       positions': seq<real>, speeds': seq<real>, h': seq<real>)
    requires RainPrefix(positions, speeds, h, n) && 3 * n + 2 < |positions| && n < |speeds|
    requires var d := RainDrop(dx, dy, dz, ds);
             positions' == positions[3 * n := d.position.x][3 * n + 1 := d.position.y]
                                    [3 * n + 2 := d.position.z]
    requires speeds' == speeds[n := RainDrop(dx, dy, dz, ds).speed]
    requires h' == h + [dx] + [dy] + [dz] + [ds]
    ensures RainPrefix(positions', speeds', h', n + 1)
  {
    forall k | 0 <= k < n + 1
      ensures DropOf(positions', speeds', k) == RainDrop(h'[4 * k], h'[4 * k + 1], h'[4 * k + 2], h'[4 * k + 3])
    {
      if k < n {
        assert DropOf(positions', speeds', k) == DropOf(positions, speeds, k);
        assert h'[4 * k] == h[4 * k] && h'[4 * k + 1] == h[4 * k + 1];
        assert h'[4 * k + 2] == h[4 * k + 2] && h'[4 * k + 3] == h[4 * k + 3];
      }
    }
  }

  /** createRain: particle i takes draws 4i .. 4i + 3 and is written at
      positions 3i .. 3i + 2 and speeds i. */
  method CreateRain() returns (positions: array<real>, speeds: array<real>)
    ensures positions.Length == RainCount * 3 && speeds.Length == RainCount
    ensures forall i :: 0 <= i < RainCount ==>
              DropOf(positions[..], speeds[..], i)
              == RainDrop(Draw(RainSeed, 4 * i), Draw(RainSeed, 4 * i + 1),
                          Draw(RainSeed, 4 * i + 2), Draw(RainSeed, 4 * i + 3))
  {
    positions := new real[RainCount * 3];
    speeds := new real[RainCount];
    var random := new Mulberry32(RainSeed);
    for i := 0 to RainCount
      invariant random.Valid() && random.seed == RainSeed
      invariant RainPrefix(positions[..], speeds[..], random.history, i)
    {
      FillDrop(positions, speeds, random, i);
    }
  }

  /** One iteration of createRain's loop: particle i from the next four draws. */
  method FillDrop(positions: array<real>, speeds: array<real>, random: Mulberry32, i: nat)
    requires positions.Length == RainCount * 3 && speeds.Length == RainCount && i < RainCount
    requires random.Valid() && random.seed == RainSeed
    requires RainPrefix(positions[..], speeds[..], random.history, i)
    modifies positions, speeds, random
    ensures random.Valid() && random.seed == RainSeed
    ensures RainPrefix(positions[..], speeds[..], random.history, i + 1)
  {
    ghost var before := positions[..];
    ghost var speedsBefore := speeds[..];
    ghost var h := random.history;
    CounterStaysExact(RainSeed, 4 * i + 4);
    var dx := random.Next();
    positions[i * 3] := (dx - 0.5) * 20.0;
    var dy := random.Next();
    positions[i * 3 + 1] := dy * 12.0 + 4.0;
    var dz := random.Next();
    positions[i * 3 + 2] := (dz - 0.5) * 60.0;
    var ds := random.Next();
    speeds[i] := ds * 6.0 + 8.0;
    RainPrefixStep(before, speedsBefore, h, i, dx, dy, dz, ds,
                   positions[..], speeds[..], random.history);
  }

  // ---------------------------------------------------------------- puddles

  const PuddleSeed: int := 458123

  /** `z % 4`: ECMAScript's `%` truncates the quotient, so the remainder
      takes the sign of the dividend and lies strictly between -4 and 4. */
  function RemFour(z: real): (r: real)
    ensures -4.0 < r < 4.0
    ensures 0.0 <= z ==> 0.0 <= r
    ensures z <= 0.0 ==> r <= 0.0
  {
    z - 4.0 * Trunc(z / 4.0) as real
  }

  /** The puddle term: a Gaussian dip around x = -2, repeated every 4 units
      of z, at most 0.08 deep. */
  function PuddleDip(m: JsMath, x: real, z: real): real
  {
    var u := (x + 2.0) * 0.4;
    var w := RemFour(z) * 0.8;
    m.exp(-(u * u) - (w * w)) * 0.08
  }

  /** The ripple term, whose phase comes from the vertex's draw. */
  function Ripple(m: JsMath, z: real, draw: real): real
  {
    m.sin(z * 2.0 + draw * Pi * 2.0) * 0.004
  }

  /** The height given to a vertex at (x, z) with its draw. */
  function PuddleHeight(m: JsMath, x: real, z: real, draw: real): real
  {
    PuddleDip(m, x, z) + Ripple(m, z, draw)
  }

  /** Every height lies in (-0.004, 0.084]: the puddle term in (0, 0.08], the
      ripple within 0.004 either way. */
  lemma PuddleHeightRange(m: JsMath, x: real, z: real, draw: real)
    requires Sound(m)
    ensures -0.004 < PuddleHeight(m, x, z, draw) <= 0.084
  {
    var u := (x + 2.0) * 0.4;
    var w := RemFour(z) * 0.8;
    assert 0.0 <= u * u && 0.0 <= w * w;
    assert 0.0 < m.exp(-(u * u) - (w * w)) <= 1.0;
    assert -1.0 <= m.sin(z * 2.0 + draw * Pi * 2.0) <= 1.0;
  }

  /** After n vertices: those vertices keep X and Z and have Y set to their
      height, with the draws of `h`; every later component is untouched. */
  ghost predicate PuddlePrefix(m: JsMath, orig: seq<real>, s: seq<real>, h: seq<real>, n: nat)
  {
    && |s| == |orig| && 3 * n <= |s| && |h| == n
    && (forall k :: 0 <= k < n ==>
          VertexOf(s, k) == Vec3(VertexOf(orig, k).x,
                                 PuddleHeight(m, VertexOf(orig, k).x, VertexOf(orig, k).z, h[k]),
                                 VertexOf(orig, k).z))
    && (forall j :: 3 * n <= j < |s| ==> s[j] == orig[j])
  }

  /** Setting vertex n's Y from its own X and Z and the next draw extends the
      displaced prefix. */
  lemma PuddlePrefixStep(m: JsMath, orig: seq<real>, s: seq<real>, h: seq<real>, n: nat,
                         draw: real, s': seq<real>, h': seq<real>)
    requires PuddlePrefix(m, orig, s, h, n) && 3 * n + 2 < |s|
    requires s' == s[3 * n + 1 := PuddleHeight(m, s[3 * n], s[3 * n + 2], draw)]
    requires h' == h + [draw]
    ensures PuddlePrefix(m, orig, s', h', n + 1)
  {
    assert s[3 * n] == orig[3 * n] && s[3 * n + 2] == orig[3 * n + 2];
    forall k | 0 <= k < n + 1
      ensures VertexOf(s', k) == Vec3(VertexOf(orig, k).x,
                                      PuddleHeight(m, VertexOf(orig, k).x, VertexOf(orig, k).z, h'[k]),
                                      VertexOf(orig, k).z)
    {
      if k < n {
        assert VertexOf(s', k) == VertexOf(s, k);
      }
    }
  }

  /** addPuddleDisplacement: vertex i reads its X and Z, takes draw i and
      writes only its Y. The buffer holds three components per vertex, and the
      generator's counter must stay exact (at most 2^22 vertices). */
  method AddPuddleDisplacement(m: JsMath, position: array<real>)
    requires position.Length % 3 == 0 && position.Length / 3 <= 0x40_0000
    modifies position
    ensures forall k :: 0 <= k < position.Length / 3 ==>
              var v := VertexOf(old(position[..]), k);
              VertexOf(position[..], k) == Vec3(v.x, PuddleHeight(m, v.x, v.z, Draw(PuddleSeed, k)), v.z)
  {
    ghost var orig := position[..];
    var random := new Mulberry32(PuddleSeed);
    var count := position.Length / 3;
    assert position.Length == count * 3;
    for i := 0 to count
      invariant random.Valid() && random.seed == PuddleSeed
      invariant PuddlePrefix(m, orig, position[..], random.history, i)
    {
      ghost var before := position[..];
      ghost var h := random.history;
      CounterStaysExact(PuddleSeed, i + 1);
      var x := position[i * 3];
      var z := position[i * 3 + 2];
      var puddle := PuddleDip(m, x, z);
      var draw := random.Next();
      var ripple := Ripple(m, z, draw);
      position[i * 3 + 1] := puddle + ripple;
      PuddlePrefixStep(m, orig, before, h, i, draw, position[..], random.history);
    }
  }
}
