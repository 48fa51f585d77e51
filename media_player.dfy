/**
 * The media player entity: the `h:m:s` rendering of the media duration, the
 * state icon, and the decoding of the `supported_media_commands` bit mask
 * into the thirteen `Supports*` fields while the entity is mapped from JSON.
 */
module MediaPlayer {
  import opened Wrappers
  import opened Text

  /** Swift's `/` on `Int`: the quotient is truncated toward zero. */
  function SwiftQuot(a: int, b: int): int
    requires b > 0
  {
    if a >= 0 then a / b else -((-a) / b)
  }

  /** Swift's `%` on `Int`: the remainder takes the sign of the dividend. */
  function SwiftRem(a: int, b: int): int
    requires b > 0
  {
    if a >= 0 then a % b else -((-a) % b)
  }

  /** Truncating division and remainder fit together as Euclidean ones do. */
  lemma SwiftDivision(a: int, b: int)
    requires b > 0
    ensures SwiftQuot(a, b) * b + SwiftRem(a, b) == a
    ensures -b < SwiftRem(a, b) < b
    ensures a >= 0 ==> 0 <= SwiftRem(a, b) && 0 <= SwiftQuot(a, b)
    ensures a < 0 ==> SwiftRem(a, b) <= 0 && SwiftQuot(a, b) <= 0
  {
  }

  function Hours(d: int): int { SwiftQuot(d, 3600) }
  function Minutes(d: int): int { SwiftQuot(SwiftRem(d, 3600), 60) }
  function Seconds(d: int): int { SwiftRem(SwiftRem(d, 3600), 60) }

  /** `humanReadableMediaDuration`: `"\(hours):\(minutes):\(seconds)"`, or "00:00:00" with no duration. */
  function HumanReadableDuration(duration: Option<int>): string {
    match duration
    case None => "00:00:00"
    case Some(d) => IntText(Hours(d)) + ":" + IntText(Minutes(d)) + ":" + IntText(Seconds(d))
  }

  /** For a non-negative duration the three parts are a mixed-radix split of it. */
  lemma DurationParts(d: int)
    requires d >= 0
    ensures Hours(d) * 3600 + Minutes(d) * 60 + Seconds(d) == d
    ensures 0 <= Minutes(d) < 60 && 0 <= Seconds(d) < 60
    ensures 0 <= Hours(d)
  {
    SwiftDivision(d, 3600);
    SwiftDivision(SwiftRem(d, 3600), 60);
  }

  /**
   * A non-negative duration is shown as three unpadded decimal numerals
   * separated by colons, which read back as hours, minutes below 60 and
   * seconds below 60 summing to the duration.
   */
  lemma {:induction false} DurationTextReadsBack(d: int)
    requires d >= 0
    ensures exists h, m, s ::
      && HumanReadableDuration(Some(d)) == h + ":" + m + ":" + s
      && IsDecimalNumeral(h) && IsDecimalNumeral(m) && IsDecimalNumeral(s)
      && DecimalValue(m) < 60 && DecimalValue(s) < 60
      && DecimalValue(h) * 3600 + DecimalValue(m) * 60 + DecimalValue(s) == d
  {
    DurationParts(d);
    var h, m, s := Decimal(Hours(d)), Decimal(Minutes(d)), Decimal(Seconds(d));
    DecimalRoundTrip(Hours(d));
    DecimalRoundTrip(Minutes(d));
    DecimalRoundTrip(Seconds(d));
    assert HumanReadableDuration(Some(d)) == h + ":" + m + ":" + s;
  }

  lemma DurationExampleMinuteAndSeconds()
    ensures HumanReadableDuration(Some(65)) == "0:1:5"
  {
    assert Hours(65) == 0 && Minutes(65) == 1 && Seconds(65) == 5;
  }

  lemma DurationExampleHour()
    ensures HumanReadableDuration(Some(3725)) == "1:2:5"
  {
    assert Hours(3725) == 1 && Minutes(3725) == 2 && Seconds(3725) == 5;
  }

  /** Truncating division gives every part of a negative duration a minus sign. */
  lemma DurationExampleNegative()
    ensures HumanReadableDuration(Some(-65)) == "0:-1:-5"
  {
    assert Hours(-65) == 0 && Minutes(-65) == -1 && Seconds(-65) == -5;
    assert IntText(-1) == "-1" && IntText(-5) == "-5";
  }

  lemma DurationExampleMissing()
    ensures HumanReadableDuration(None) == "00:00:00"
  {
  }

  /** `StateIcon`. */
  function StateIcon(state: string): (icon: string)
    ensures icon == "mdi:cast" <==> state == "off" || state == "idle"
    ensures icon == "mdi:cast" || icon == "mdi:cast-connected"
  {
    if state != "off" && state != "idle" then "mdi:cast-connected" else "mdi:cast"
  }

  /** The options of `MediaPlayerSupportedCommands`. */
  datatype Command =
    | Pause | Seek | VolumeSet | VolumeMute | PreviousTrack | NextTrack
    | TurnOn | TurnOff | PlayMedia | VolumeStep | SelectSource | Stop | ClearPlaylist

  const AllCommands: seq<Command> :=
    [ Pause, Seek, VolumeSet, VolumeMute, PreviousTrack, NextTrack,
      TurnOn, TurnOff, PlayMedia, VolumeStep, SelectSource, Stop, ClearPlaylist ]

  /** The raw value of each option. */
  function RawValue(c: Command): nat {
    match c
    case Pause => 1
    case Seek => 2
    case VolumeSet => 4
    case VolumeMute => 8
    case PreviousTrack => 16
    case NextTrack => 32
    case TurnOn => 128
    case TurnOff => 256
    case PlayMedia => 512
    case VolumeStep => 1024
    case SelectSource => 2048
    case Stop => 4096
    case ClearPlaylist => 8192
  }

  /** The position of the one bit set in an option's raw value. */
  function BitIndex(c: Command): nat {
    match c
    case Pause => 0
    case Seek => 1
    case VolumeSet => 2
    case VolumeMute => 3
    case PreviousTrack => 4
    case NextTrack => 5
    case TurnOn => 7
    case TurnOff => 8
    case PlayMedia => 9
    case VolumeStep => 10
    case SelectSource => 11
    case Stop => 12
    case ClearPlaylist => 13
  }

  function Pow2(k: nat): (p: nat)
    ensures p >= 1
  {
    if k == 0 then 1 else 2 * Pow2(k - 1)
  }

  /**
   * Bit `k` of the two's-complement representation of `x` (Euclidean `/` and
   * `%` by 2 are an arithmetic shift and the low bit, negative `x` included).
   */
  predicate TestBit(x: int, k: nat)
    decreases k
  {
    if k == 0 then x % 2 == 1 else TestBit(x / 2, k - 1)
  }

  /**
   * `OptionSet.contains` on the raw `Int`: `raw & c.rawValue == c.rawValue`,
   * which for a single-bit option is a test of that bit.
   */
  predicate ContainsCommand(raw: int, c: Command) {
    TestBit(raw, BitIndex(c))
  }

  /** Every raw value is a power of two, no two options share a bit, and the bit of 64 names no option. */
  lemma RawValuesAreDistinctBits()
    ensures forall c :: RawValue(c) == Pow2(BitIndex(c))
    ensures forall c, d :: c != d ==> BitIndex(c) != BitIndex(d)
    ensures forall c :: RawValue(c) != 64 && BitIndex(c) != 6 && BitIndex(c) < 14
  {
    assert Pow2(6) == 64 by {
      assert Pow2(0) == 1 && Pow2(1) == 2 && Pow2(2) == 4 && Pow2(3) == 8 && Pow2(4) == 16 && Pow2(5) == 32;
    }
    forall c ensures RawValue(c) == Pow2(BitIndex(c)) {
      PowersUpTo13();
    }
  }

  lemma PowersUpTo13()
    ensures Pow2(0) == 1 && Pow2(1) == 2 && Pow2(2) == 4 && Pow2(3) == 8 && Pow2(4) == 16 && Pow2(5) == 32
    ensures Pow2(7) == 128 && Pow2(8) == 256 && Pow2(9) == 512 && Pow2(10) == 1024
    ensures Pow2(11) == 2048 && Pow2(12) == 4096 && Pow2(13) == 8192
  {
    assert Pow2(6) == 64;
  }

  /** A power of two has exactly one bit set. */
  lemma {:induction false} PowerHasOneBit(k: nat, j: nat)
    ensures TestBit(Pow2(k), j) <==> j == k
    decreases k
  {
    if k == 0 {
      if j > 0 {
        ZeroHasNoBits(j - 1);
      }
    } else if j > 0 {
      PowerHasOneBit(k - 1, j - 1);
    }
  }

  lemma {:induction false} ZeroHasNoBits(j: nat)
    ensures !TestBit(0, j)
    decreases j
  {
    if j > 0 {
      ZeroHasNoBits(j - 1);
    }
  }

  /** Adding the power of two of a bit that is clear sets that bit and no other. */
  lemma {:induction false} AddClearBit(x: int, k: nat, j: nat)
    requires !TestBit(x, k)
    ensures TestBit(x + Pow2(k), j) <==> j == k || TestBit(x, j)
    decreases k
  {
    if k == 0 {
      assert x % 2 == 0;
      if j > 0 {
        assert (x + 1) / 2 == x / 2;
      }
    } else {
      assert x + Pow2(k) == x + 2 * Pow2(k - 1);
      if j == 0 {
        assert (x + 2 * Pow2(k - 1)) % 2 == x % 2;
      } else {
        assert (x + 2 * Pow2(k - 1)) / 2 == x / 2 + Pow2(k - 1);
        AddClearBit(x / 2, k - 1, j - 1);
      }
    }
  }

  /** The options a raw value holds. */
  function Decode(raw: int): (cs: set<Command>)
    ensures forall c :: c in cs <==> ContainsCommand(raw, c)
  {
    set c | c in AllCommands && ContainsCommand(raw, c)
  }

  predicate Distinct(cs: seq<Command>) {
    forall i, j :: 0 <= i < j < |cs| ==> cs[i] != cs[j]
  }

  /** The raw value of a list of distinct options: the union of their bits, here their sum. */
  function Encode(cs: seq<Command>): int
    requires Distinct(cs)
  {
    if cs == [] then 0 else Encode(cs[1..]) + RawValue(cs[0])
  }

  /** The encoding of a list of options holds exactly the options listed. */
  lemma {:induction false} EncodeHolds(cs: seq<Command>)
    requires Distinct(cs)
    ensures forall d :: ContainsCommand(Encode(cs), d) <==> d in cs
  {
    RawValuesAreDistinctBits();
    if cs == [] {
      forall d ensures !ContainsCommand(0, d) {
        ZeroHasNoBits(BitIndex(d));
      }
    } else {
      var rest := Encode(cs[1..]);
      EncodeHolds(cs[1..]);
      assert !ContainsCommand(rest, cs[0]);
      forall d ensures ContainsCommand(Encode(cs), d) <==> d in cs {
        AddClearBit(rest, BitIndex(cs[0]), BitIndex(d));
        assert d in cs <==> d == cs[0] || d in cs[1..];
      }
    }
  }

  /** Decoding the encoding of distinct options gives back exactly those options. */
  lemma DecodeEncode(cs: seq<Command>)
    requires Distinct(cs)
    ensures Decode(Encode(cs)) == set c | c in cs
  {
    EncodeHolds(cs);
  }

  /** The raw value of one option decodes to that option alone. */
  lemma DecodeSingle(c: Command)
    ensures Decode(RawValue(c)) == {c}
  {
    RawValuesAreDistinctBits();
    forall d ensures ContainsCommand(RawValue(c), d) <==> d == c {
      PowerHasOneBit(BitIndex(c), BitIndex(d));
    }
  }

  /** Setting the bit of 64, which names no option, does not change what is decoded. */
  lemma UnassignedBitIgnored(raw: int)
    requires !TestBit(raw, 6)
    ensures Decode(raw + 64) == Decode(raw)
  {
    RawValuesAreDistinctBits();
    forall d ensures ContainsCommand(raw + 64, d) <==> ContainsCommand(raw, d) {
      AddClearBit(raw, 6, BitIndex(d));
    }
  }

  /** The thirteen `Supports*` flags of an entity, one per option. */
  datatype Supported = Supported(
    pause: bool, seek: bool, volumeSet: bool, volumeMute: bool, previousTrack: bool, nextTrack: bool,
    turnOn: bool, turnOff: bool, playMedia: bool, volumeStep: bool, selectSource: bool, stop: bool,
    clearPlaylist: bool)
  {
    /** The flag belonging to an option. */
    function Has(c: Command): bool {
      match c
      case Pause => pause
      case Seek => seek
      case VolumeSet => volumeSet
      case VolumeMute => volumeMute
      case PreviousTrack => previousTrack
      case NextTrack => nextTrack
      case TurnOn => turnOn
      case TurnOff => turnOff
      case PlayMedia => playMedia
      case VolumeStep => volumeStep
      case SelectSource => selectSource
      case Stop => stop
      case ClearPlaylist => clearPlaylist
    }
  }

  /** The flags of a new entity: all false. */
  const NothingSupported: Supported :=
    Supported(false, false, false, false, false, false, false, false, false, false, false, false, false)

  lemma NothingSupportedHasNothing()
    ensures forall c :: !NothingSupported.Has(c)
  {
  }

  /** The flags `mapping(map:)` derives from a command mask: each says whether its option's bit is set. */
  function SupportedFrom(raw: int): (s: Supported)
    ensures forall c :: s.Has(c) <==> c in Decode(raw)
  {
    Supported(
      ContainsCommand(raw, Pause), ContainsCommand(raw, Seek), ContainsCommand(raw, VolumeSet),
      ContainsCommand(raw, VolumeMute), ContainsCommand(raw, PreviousTrack), ContainsCommand(raw, NextTrack),
      ContainsCommand(raw, TurnOn), ContainsCommand(raw, TurnOff), ContainsCommand(raw, PlayMedia),
      ContainsCommand(raw, VolumeStep), ContainsCommand(raw, SelectSource), ContainsCommand(raw, Stop),
      ContainsCommand(raw, ClearPlaylist))
  }

  /** The attributes of the entity JSON that the mapping reads here. */
  datatype Attributes = Attributes(
    state: string,
    mediaDuration: Option<int>,
    sourceList: Option<seq<string>>,
    supportedMediaCommands: Option<int>)

  /**
   * A media player entity as stored, with the fields the mapping assigns; the
   * thirteen `Supports*` fields are kept together in `supports`.
   */
  class Player {
    var state: string
    var mediaDuration: Option<int>
    var storedSourceList: seq<string>
    var supportedMediaCommands: Option<int>
    var supports: Supported

    /** A new entity: every `Supports*` field starts out false. */
    constructor ()
      ensures state == "" && mediaDuration == None && supportedMediaCommands == None
      ensures storedSourceList == []
      ensures supports == NothingSupported
    {
      state := "";
      mediaDuration := None;
      storedSourceList := [];
      supportedMediaCommands := None;
      supports := NothingSupported;
    }

    /**
     * `mapping(map:)`: the source list is appended to the stored one, and only
     * when a command mask is present are the `Supports*` fields overwritten,
     * each with whether its bit is set.
     */
    method Mapping(attributes: Attributes)
      modifies this
      ensures state == attributes.state
      ensures mediaDuration == attributes.mediaDuration
      ensures supportedMediaCommands == attributes.supportedMediaCommands
      ensures storedSourceList == old(storedSourceList) + attributes.sourceList.GetOr([])
      ensures attributes.supportedMediaCommands.Some? ==>
        supports == SupportedFrom(attributes.supportedMediaCommands.value)
      ensures attributes.supportedMediaCommands.None? ==> supports == old(supports)
    {
      state := attributes.state;
      mediaDuration := attributes.mediaDuration;
      if attributes.sourceList.Some? {
        var options := attributes.sourceList.value;
        var i := 0;
        while i < |options|
          invariant 0 <= i <= |options|
          invariant storedSourceList == old(storedSourceList) + options[..i]
          invariant state == attributes.state && mediaDuration == attributes.mediaDuration
          invariant supports == old(supports)
          invariant supportedMediaCommands == old(supportedMediaCommands)
        {
          storedSourceList := storedSourceList + [options[i]];
          i := i + 1;
        }
        assert options[..i] == options;
      }
      supportedMediaCommands := attributes.supportedMediaCommands;
      if supportedMediaCommands.Some? {
        supports := SupportedFrom(supportedMediaCommands.value);
      }
    }

    /** `humanReadableMediaDuration` on the stored duration. */
    function HumanReadableMediaDuration(): string
      reads this
    {
      HumanReadableDuration(mediaDuration)
    }
  }

  /**
   * Mapping fresh from JSON (a new entity, then `mapping(map:)`): the flags
   * are those of the mask's bits, and without a mask none is set.
   */
  method MapFromJSON(attributes: Attributes) returns (supported: Supported)
    ensures attributes.supportedMediaCommands.None? ==> forall c :: !supported.Has(c)
    ensures attributes.supportedMediaCommands.Some? ==>
      forall c :: supported.Has(c) <==> ContainsCommand(attributes.supportedMediaCommands.value, c)
  {
    var player := new Player();
    player.Mapping(attributes);
    supported := player.supports;
    NothingSupportedHasNothing();
  }
}
