/** The seeded raster fills of the street scene: the asphalt albedo, the
    tangent-space normal map and the steam sprite's alpha mask. Each creates its
    own generator with a fixed seed, draws from it in texel order and writes a
    fresh byte buffer texel by texel. */
module Textures {
  import opened JsNumbers
  import opened Mulberry

  datatype Rgb = Rgb(r: Byte, g: Byte, b: Byte)
  datatype Rgba = Rgba(r: Byte, g: Byte, b: Byte, a: Byte)

  /** Texel k of a buffer of three channels per texel. */
  function TexelOf(s: seq<Byte>, k: nat): Rgb
    requires 3 * k + 2 < |s|
  {
    Rgb(s[3 * k], s[3 * k + 1], s[3 * k + 2])
  }

  /** Pixel k of an RGBA buffer. */
  function PixelOf(s: seq<Byte>, k: nat): Rgba
    requires 4 * k + 3 < |s|
  {
    Rgba(s[4 * k], s[4 * k + 1], s[4 * k + 2], s[4 * k + 3])
  }

  // ---------------------------------------------------------------- asphalt

  const AsphaltSize: nat := 1024
  const AsphaltSeed: int := 1245789

  /** `value` of texel i: `pow(draw, 1.2) * 180 + sin(i * 0.00013) * 12`. */
  function AsphaltValue(m: JsMath, draw: real, i: nat): real
  {
    m.pow(draw, 1.2) * 180.0 + m.sin(i as real * 0.00013) * 12.0
  }

  /** For a draw in [0, 1) the value lies in [-12, 192]: the sine term can take
      it below zero. */
  lemma AsphaltValueRange(m: JsMath, draw: real, i: nat)
    requires Sound(m) && 0.0 <= draw < 1.0
    ensures -12.0 <= AsphaltValue(m, draw, i) <= 192.0
  {
  }

  /** Texel i of the asphalt texture, given its draw: the value scaled per
      channel by 1, 0.92 and 0.85, each stored through ToUint8. */
  function AsphaltTexel(m: JsMath, draw: real, i: nat): Rgb
  {
    var v := AsphaltValue(m, draw, i);
    Rgb(ToUint8(v), ToUint8(v * 0.92), ToUint8(v * 0.85))
  }

  /** A Uint8Array store of a value in [-12, 192]: a non-negative value keeps its
      integer part; one at or below -1 wraps around to 244 or more. */
  lemma StoreAsphaltByte(w: real)
    requires -12.0 <= w <= 192.0
    ensures 0.0 <= w ==> ToUint8(w) as int == w.Floor <= 192
    ensures -1.0 < w < 0.0 ==> ToUint8(w) == 0
    ensures w <= -1.0 ==> ToUint8(w) as int == 256 + Trunc(w) >= 244
  {
    var t := Trunc(w);
    assert -12 <= t <= 192;
  }

  /** A texel whose value is non-negative is the value's integer part per
      channel, red at least green at least blue (the warm-grey bias); a value
      at or below -1 does not clip to black but wraps to a bright red byte. */
  lemma AsphaltTexelBytes(m: JsMath, draw: real, i: nat)
    requires Sound(m) && 0.0 <= draw < 1.0
    ensures var v := AsphaltValue(m, draw, i);
            var t := AsphaltTexel(m, draw, i);
            && (0.0 <= v ==> t.r as int == v.Floor && t.g as int == (v * 0.92).Floor
                             && t.b as int == (v * 0.85).Floor && t.b <= t.g <= t.r <= 192)
            && (v <= -1.0 ==> t.r >= 244)
  {
    var v := AsphaltValue(m, draw, i);
    AsphaltValueRange(m, draw, i);
    StoreAsphaltByte(v);
    StoreAsphaltByte(v * 0.92);
    StoreAsphaltByte(v * 0.85);
    if 0.0 <= v {
      assert v * 0.85 <= v * 0.92 <= v;
    }
  }

  /** The first n texels of `s` are the asphalt texels of the draws in `h`,
      one per texel. */
  ghost predicate AsphaltPrefix(m: JsMath, s: seq<Byte>, h: seq<real>, n: nat)
  {
    && 3 * n <= |s| && |h| == n
    && forall k :: 0 <= k < n ==> TexelOf(s, k) == AsphaltTexel(m, h[k], k)
  }

  /** Writing texel n from the next draw extends the filled prefix by one. */
  lemma AsphaltPrefixStep(m: JsMath, s: seq<Byte>, h: seq<real>, n: nat, draw: real,
                          s': seq<Byte>, h': seq<real>)
    requires AsphaltPrefix(m, s, h, n) && 3 * n + 2 < |s|
    requires s' == s[3 * n := AsphaltTexel(m, draw, n).r][3 * n + 1 := AsphaltTexel(m, draw, n).g]
                    [3 * n + 2 := AsphaltTexel(m, draw, n).b]
    requires h' == h + [draw]
    ensures AsphaltPrefix(m, s', h', n + 1)
  {
    forall k | 0 <= k < n + 1
      ensures TexelOf(s', k) == AsphaltTexel(m, h'[k], k)
    {
      if k < n {
        assert TexelOf(s', k) == TexelOf(s, k);
      }
    }
  }

  /** createAsphaltTexture: one draw per texel, in texel order, texel i written
      at 3i, 3i + 1 and 3i + 2. */
  method CreateAsphaltTexture(m: JsMath) returns (data: array<Byte>)
    ensures data.Length == AsphaltSize * AsphaltSize * 3
    ensures forall i :: 0 <= i < AsphaltSize * AsphaltSize ==>
              TexelOf(data[..], i) == AsphaltTexel(m, Draw(AsphaltSeed, i), i)
  {
    var n := AsphaltSize * AsphaltSize;
    data := new Byte[n * 3];
    var random := new Mulberry32(AsphaltSeed);
    for i := 0 to n
      invariant random.Valid() && random.seed == AsphaltSeed
      invariant AsphaltPrefix(m, data[..], random.history, i)
    {
      ghost var before := data[..];
      ghost var h := random.history;
      CounterStaysExact(AsphaltSeed, i + 1);
      var stride := i * 3;
      var draw := random.Next();
      var value := AsphaltValue(m, draw, i);
      data[stride] := ToUint8(value);
      data[stride + 1] := ToUint8(value * 0.92);
      data[stride + 2] := ToUint8(value * 0.85);
      AsphaltPrefixStep(m, before, h, i, draw, data[..], random.history);
    }
  }

  // ------------------------------------------------------------- normal map

  const NormalSize: nat := 512
  const NormalSeed: int := 94321

  lemma ProductInUnit(c: real, s: real)
    requires -1.0 <= c <= 1.0 && 0.0 <= s <= 1.0
    ensures -1.0 <= c * s <= 1.0
  {
    if c >= 0.0 {
      assert 0.0 <= c * s <= 1.0 * s;
    } else {
      assert (c + 1.0) * s >= 0.0;
      assert c * s <= 0.0;
    }
  }

  /** `(component * strength * 127 + 128) & 255`: ToInt32, then the low eight
      bits. */
  function NormalChannel(component: real, strength: real): Byte
  {
    LowByte(ToInt32(component * strength * 127.0 + 128.0))
  }

  /** On a value in [0, 256) the mask keeps the integer part. */
  lemma MaskKeepsIntegerPart(v: real)
    requires 0.0 <= v < 256.0
    ensures LowByte(ToInt32(v)) as int == v.Floor
  {
    assert Trunc(v) == v.Floor;
    assert ToInt32(v) == v.Floor;
  }

  /** For a unit component and a strength in [0, 1] the value lies in [1, 255],
      so the mask never wraps and the byte is the value's integer part. */
  lemma NormalChannelByte(component: real, strength: real)
    requires -1.0 <= component <= 1.0 && 0.0 <= strength <= 1.0
    ensures 1 <= NormalChannel(component, strength) as int == (component * strength * 127.0 + 128.0).Floor
  {
    ProductInUnit(component, strength);
    MaskKeepsIntegerPart(component * strength * 127.0 + 128.0);
  }

  /** `random() * Math.PI * 2`: the direction of a texel's tilt. */
  function NormalAngle(draw: real): real
  {
    draw * Pi * 2.0
  }

  /** `random() * 0.6 + 0.4`: how far the texel tilts. */
  function NormalStrength(draw: real): real
  {
    draw * 0.6 + 0.4
  }

  /** A texel of the normal map from its two draws; blue is always 255. */
  function NormalTexel(m: JsMath, angleDraw: real, strengthDraw: real): Rgb
  {
    var angle := NormalAngle(angleDraw);
    var strength := NormalStrength(strengthDraw);
    Rgb(NormalChannel(m.cos(angle), strength), NormalChannel(m.sin(angle), strength), 255)
  }

  /** With draws in [0, 1) the strength lies in [0.4, 1), and red and green
      are the integer parts of the cosine and sine of the angle scaled by the
      strength into [1, 255]: the normal tilts by at most the strength, never
      flips, and points outward (blue 255). */
  lemma NormalTexelBytes(m: JsMath, angleDraw: real, strengthDraw: real)
    requires Sound(m) && 0.0 <= angleDraw < 1.0 && 0.0 <= strengthDraw < 1.0
    ensures 0.4 <= NormalStrength(strengthDraw) < 1.0
    ensures NormalTexel(m, angleDraw, strengthDraw).r as int
            == (m.cos(NormalAngle(angleDraw)) * NormalStrength(strengthDraw) * 127.0 + 128.0).Floor
    ensures NormalTexel(m, angleDraw, strengthDraw).g as int
            == (m.sin(NormalAngle(angleDraw)) * NormalStrength(strengthDraw) * 127.0 + 128.0).Floor
    ensures 1 <= NormalTexel(m, angleDraw, strengthDraw).r as int
    ensures 1 <= NormalTexel(m, angleDraw, strengthDraw).g as int
    ensures NormalTexel(m, angleDraw, strengthDraw).b == 255
  {
    NormalChannelByte(m.cos(NormalAngle(angleDraw)), NormalStrength(strengthDraw));
    NormalChannelByte(m.sin(NormalAngle(angleDraw)), NormalStrength(strengthDraw));
  }

  /** The first n texels of `s` are the normal texels of the draws in `h`,
      two per texel. */
  ghost predicate NormalPrefix(m: JsMath, s: seq<Byte>, h: seq<real>, n: nat)
  {
    && 3 * n <= |s| && |h| == 2 * n
    && forall k :: 0 <= k < n ==> TexelOf(s, k) == NormalTexel(m, h[2 * k], h[2 * k + 1])
  }

  lemma NormalPrefixStep(m: JsMath, s: seq<Byte>, h: seq<real>, n: nat, a: real, b: real, s': seq<Byte>, h': seq<real>)
    requires NormalPrefix(m, s, h, n) && 3 * n + 2 < |s|
    requires s' == s[3 * n := NormalTexel(m, a, b).r][3 * n + 1 := NormalTexel(m, a, b).g][3 * n + 2 := 255]
    requires h' == h + [a, b]
    ensures NormalPrefix(m, s', h', n + 1)
  {
    forall k | 0 <= k < n + 1
      ensures TexelOf(s', k) == NormalTexel(m, h'[2 * k], h'[2 * k + 1])
    {
      if k < n {
        assert TexelOf(s', k) == TexelOf(s, k);
      }
    }
  }

  /** createNormalTexture: rows then columns, texel y * 512 + x, two draws per
      texel taken in texel order. */
  method CreateNormalTexture(m: JsMath) returns (data: array<Byte>)
    ensures data.Length == NormalSize * NormalSize * 3
    ensures forall k :: 0 <= k < NormalSize * NormalSize ==>
              TexelOf(data[..], k) == NormalTexel(m, Draw(NormalSeed, 2 * k), Draw(NormalSeed, 2 * k + 1))
  {
    data := new Byte[NormalSize * NormalSize * 3];
    var random := new Mulberry32(NormalSeed);
    for y := 0 to NormalSize
      invariant random.Valid() && random.seed == NormalSeed
      invariant NormalPrefix(m, data[..], random.history, y * NormalSize)
    {
      FillNormalRow(m, data, random, y);
    }
  }

  /** One pass of the inner loop of createNormalTexture: the texels of row y. */
  method FillNormalRow(m: JsMath, data: array<Byte>, random: Mulberry32, y: nat)
    requires data.Length == NormalSize * NormalSize * 3 && y < NormalSize
    requires random.Valid() && random.seed == NormalSeed
    requires NormalPrefix(m, data[..], random.history, y * NormalSize)
    modifies data, random
    ensures random.Valid() && random.seed == NormalSeed
    ensures NormalPrefix(m, data[..], random.history, (y + 1) * NormalSize)
  {
    for x := 0 to NormalSize
      invariant random.Valid() && random.seed == NormalSeed
      invariant NormalPrefix(m, data[..], random.history, y * NormalSize + x)
    {
      ghost var before := data[..];
      ghost var h := random.history;
      var i := y * NormalSize + x;
      var stride := i * 3;
      CounterStaysExact(NormalSeed, 2 * i + 2);
      var angleDraw := random.Next();
      var angle := angleDraw * Pi * 2.0;
      var strengthDraw := random.Next();
      var strength := strengthDraw * 0.6 + 0.4;
      data[stride] := NormalChannel(m.cos(angle), strength);
      data[stride + 1] := NormalChannel(m.sin(angle), strength);
      data[stride + 2] := 255;
      NormalPrefixStep(m, before, h, i, angleDraw, strengthDraw, data[..], random.history);
    }
  }

  // ----------------------------------------------------------- steam sprite

  const SteamSize: nat := 256
  const SteamSeed: int := 98321

  /** The alpha byte of a steam texel from its draw: `pow(draw, 2.2) * 255`
      stored into ImageData.data, that is through ToUint8Clamp. */
  function SteamAlpha(m: JsMath, draw: real): Byte
  {
    ToUint8Clamp(m.pow(draw, 2.2) * 255.0)
  }

  /** For a draw in [0, 1) the value already lies in [0, 255], so the clamp
      only rounds: alpha is within one half of it. */
  lemma SteamAlphaRounds(m: JsMath, draw: real)
    requires Sound(m) && 0.0 <= draw < 1.0
    ensures var v := m.pow(draw, 2.2) * 255.0;
            0.0 <= v <= 255.0 && v - 0.5 <= SteamAlpha(m, draw) as int as real <= v + 0.5
  {
  }

  /** The first n pixels of `s` are steam pixels of the draws in `h`. */
  ghost predicate SteamPrefix(m: JsMath, s: seq<Byte>, h: seq<real>, n: nat)
  {
    && 4 * n <= |s| && |h| == n
    && forall k :: 0 <= k < n ==> PixelOf(s, k) == Rgba(200, 215, 255, SteamAlpha(m, h[k]))
  }

  /** Writing pixel n from the next draw extends the filled prefix by one. */
  lemma SteamPrefixStep(m: JsMath, s: seq<Byte>, h: seq<real>, n: nat, draw: real,
                        s': seq<Byte>, h': seq<real>)
    requires SteamPrefix(m, s, h, n) && 4 * n + 3 < |s|
    requires s' == s[4 * n := 200][4 * n + 1 := 215][4 * n + 2 := 255][4 * n + 3 := SteamAlpha(m, draw)]
    requires h' == h + [draw]
    ensures SteamPrefix(m, s', h', n + 1)
  {
    forall k | 0 <= k < n + 1
      ensures PixelOf(s', k) == Rgba(200, 215, 255, SteamAlpha(m, h'[k]))
    {
      if k < n {
        assert PixelOf(s', k) == PixelOf(s, k);
      }
    }
  }

  /** generateSteamTexture: four channels per pixel, RGB constant
      (200, 215, 255), one draw per pixel for alpha. */
  method GenerateSteamTexture(m: JsMath) returns (data: array<Byte>)
    ensures data.Length == SteamSize * SteamSize * 4
    ensures forall k :: 0 <= k < SteamSize * SteamSize ==>
              PixelOf(data[..], k) == Rgba(200, 215, 255, SteamAlpha(m, Draw(SteamSeed, k)))
  {
    var n := SteamSize * SteamSize;
    data := new Byte[n * 4];
    var random := new Mulberry32(SteamSeed);
    for i := 0 to n
      invariant random.Valid() && random.seed == SteamSeed
      invariant SteamPrefix(m, data[..], random.history, i)
    {
      ghost var before := data[..];
      ghost var h := random.history;
      CounterStaysExact(SteamSeed, i + 1);
      var draw := random.Next();
      var value := m.pow(draw, 2.2) * 255.0;
      data[i * 4] := 200;
      data[i * 4 + 1] := 215;
      data[i * 4 + 2] := 255;
      data[i * 4 + 3] := ToUint8Clamp(value);
      SteamPrefixStep(m, before, h, i, draw, data[..], random.history);
    }
  }
}
