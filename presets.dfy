/** The preset catalog: the blob configurations the showcase morphs between,
    the index arithmetic that walks through them, and the progress-bar width
    that reports the position in the walk. */
module Presets {

  /** A configuration key that `updateBlob` inspects, in the order it inspects them. */
  datatype Key =
    | UPositionFrequency
    | UPositionStrength
    | USmallWavePositionFrequency
    | USmallWavePositionStrength
    | USmallWaveTimeFrequency
    | TextureMap
    | Roughness
    | Metalness
    | EnvMapIntensity
    | Clearcoat
    | ClearcoatRoughness
    | Transmission
    | FlatShading
    | Wireframe

  /** A configuration value: a number, a boolean switch or a gradient texture name. */
  datatype Value = Num(x: real) | Flag(b: bool) | Texture(name: string)

  /** A preset configuration; a key that is absent is an undefined field. */
  type Config = map<Key, Value>

  datatype Preset = Preset(name: string, background: string, config: Config)

  /** Whether `c` defines every key but the small-wave time frequency, as every
      shipped preset does. */
  predicate ShippedShape(c: Config)
  {
    forall k :: k in c <==> k != USmallWaveTimeFrequency
  }

  /** The configuration record written out for each shipped preset. */
  function Shipped(posFreq: real, posStrength: real, waveFreq: real, waveStrength: real,
                   roughness: real, metalness: real, envMapIntensity: real,
                   clearcoat: real, clearcoatRoughness: real, transmission: real,
                   flatShading: bool, wireframe: bool, texture: string): (c: Config)
    ensures ShippedShape(c)
    ensures c[TextureMap] == Texture(texture)
  {
    map[UPositionFrequency := Num(posFreq),
        UPositionStrength := Num(posStrength),
        USmallWavePositionFrequency := Num(waveFreq),
        USmallWavePositionStrength := Num(waveStrength),
        Roughness := Num(roughness),
        Metalness := Num(metalness),
        EnvMapIntensity := Num(envMapIntensity),
        Clearcoat := Num(clearcoat),
        ClearcoatRoughness := Num(clearcoatRoughness),
        Transmission := Num(transmission),
        FlatShading := Flag(flatShading),
        Wireframe := Flag(wireframe),
        TextureMap := Texture(texture)]
  }

  /** The eleven shipped presets, in scroll order. Every one of them defines
      every key except the small-wave time frequency. */
  function Blobs(): (r: seq<Preset>)
    ensures |r| == 11
    ensures forall i | 0 <= i < |r| :: ShippedShape(r[i].config)
  {
    seq(11, i requires 0 <= i < 11 => BlobAt(i))
  }

  /** The shipped preset at position `i` of the catalog. */
  function BlobAt(i: int): (p: Preset)
    requires 0 <= i < 11
    ensures ShippedShape(p.config)
  {
    match i
    case 0 => FomosphereBlob()
    case 1 => DiscobrainBlob()
    case 2 => TwistertoyBlob()
    case 3 => FungibleBlob()
    case 4 => MetalnessBlob()
    case 5 => MetagumBlob()
    case 6 => PurpleMirrorBlob()
    case 7 => AlienGooBlob()
    case 8 => FireflyBlob()
    case 9 => LipsyncBlob()
    case 10 => LiquidityBlob()
  }

  function FomosphereBlob(): Preset
  {
    Preset("Fomosphere", "#75BCC6",
      Shipped(1.1, 0.3, 0.5, 0.7, 0.5, 1.0, 0.5, 0.5, 0.5, 0.3, false, false, "hologram"))
  }

  function DiscobrainBlob(): Preset
  {
    Preset("Discobrain", "#9D73F7",
      Shipped(3.0, 1.2, 0.7, 0.2, 1.0, 0.0, 0.2, 0.4, 0.0, 0.0, false, false, "cd"))
  }

  function TwistertoyBlob(): Preset
  {
    Preset("Twistertoy", "#536C9B",
      Shipped(1.2, 0.7, 2.0, 0.6, 0.5, 0.6, 0.65, 0.5, 0.5, 0.3, false, false, "purple-rain"))
  }

  function FungibleBlob(): Preset
  {
    Preset("Fungible", "#8FD8A5",
      Shipped(0.3, 0.9, 5.0, 0.3, 0.5, 0.2, 0.65, 0.1, 0.5, 0.3, false, false, "iridescent"))
  }

  function MetalnessBlob(): Preset
  {
    Preset("Metalness", "#371B53",
      Shipped(0.1, 0.1, 2.8, 0.5, 0.5, 0.2, 0.65, 0.1, 0.0, 0.3, false, false, "synthwave"))
  }

  function MetagumBlob(): Preset
  {
    Preset("Metagum", "#99AAE6",
      Shipped(0.1, 0.3, 1.4, 0.5, 0.5, 0.2, 0.65, 0.1, 0.0, 0.3, false, false, "sunset-vibes"))
  }

  function PurpleMirrorBlob(): Preset
  {
    Preset("Purple Mirror", "#5300B1",
      Shipped(0.584, 0.276, 0.899, 1.266, 0.0, 1.0, 2.0, 0.0, 0.0, 0.0, false, false, "deep-ocean"))
  }

  function AlienGooBlob(): Preset
  {
    Preset("Alien Goo", "#45ACD8",
      Shipped(1.022, 0.99, 0.378, 0.341, 0.292, 0.73, 0.86, 1.0, 0.0, 0.0, false, false, "lucky-day"))
  }

  function FireflyBlob(): Preset
  {
    Preset("Firefly", "#380B16",
      Shipped(1.7, 0.2, 0.378, 0.341, 0.292, 0.73, 0.86, 1.0, 0.0, 0.0, false, false, "passion"))
  }

  function LipsyncBlob(): Preset
  {
    Preset("Lipsync", "#180075",
      Shipped(1.7, 0.2, 0.378, 0.341, 0.292, 0.73, 0.86, 1.0, 0.0, 0.0, false, false, "imaginarium"))
  }

  function LiquidityBlob(): Preset
  {
    Preset("Liquidity", "#FDB38A",
      Shipped(1.1, 0.9, 0.1, 0.7, 0.292, 0.73, 0.86, 1.0, 0.0, 0.0, false, false, "sunset-vibes"))
  }

  /** The preset index reached from `current` by one scroll step in `direction`,
      wrapping around a catalog of `len` presets. The sum is never negative, so
      the remainder agrees with the host language's truncating one. */
  function Next(current: int, direction: int, len: int): (r: int)
    requires 0 <= current < len
    requires -1 <= direction <= 1
    ensures 0 <= r < len
    ensures direction == 0 ==> r == current
    ensures direction == 1 ==> r == (if current == len - 1 then 0 else current + 1)
    ensures direction == -1 ==> r == (if current == 0 then len - 1 else current - 1)
  {
    WrapOnce(current + direction + len, len);
    (current + direction + len) % len
  }

  /** The remainder of a sum that is at most twice the divisor subtracts the
      divisor at most twice. */
  lemma WrapOnce(s: int, len: int)
    requires 0 < len && 0 <= s <= 2 * len
    ensures s % len == if s < len then s else if s < 2 * len then s - len else 0
  {
    if s < len {
      assert s == 0 * len + s;
    } else if s < 2 * len {
      assert s == 1 * len + (s - len);
    } else {
      assert s == 2 * len + 0;
    }
  }

  /** A step forward followed by a step back, or the other way round, returns
      to the starting preset. */
  lemma NextRoundTrip(i: int, len: int)
    requires 0 <= i < len
    ensures Next(Next(i, 1, len), -1, len) == i
    ensures Next(Next(i, -1, len), 1, len) == i
  {
  }

  /** The two wrap-around edges of the catalog. */
  lemma NextWraps(len: int)
    requires len > 0
    ensures Next(len - 1, 1, len) == 0
    ensures Next(0, -1, len) == len - 1
  {
  }

  /** The progress-bar width, in percent, after moving to preset `next` of `len`. */
  function ProgressPercent(next: int, len: int): (r: real)
    requires 0 <= next < len
    ensures 0.0 < r <= 100.0
    ensures r == 100.0 <==> next == len - 1
    ensures r * len as real == (next + 1) as real * 100.0
  {
    ((next + 1) as real / len as real) * 100.0
  }

  /** Later presets show a strictly wider bar. */
  lemma ProgressIncreasing(i: int, j: int, len: int)
    requires 0 <= i < j < len
    ensures ProgressPercent(i, len) < ProgressPercent(j, len)
  {
    var pi, pj := ProgressPercent(i, len), ProgressPercent(j, len);
    assert pi * len as real < pj * len as real;
  }
}
