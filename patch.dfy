/**
 * Channel-kind resolution and fixture profiles (src/fixture/patch.rs), together
 * with the fields of the Open Fixture Library records that the resolution reads
 * (src/fixture/ofl.rs declares them for deserialisation).
 */
module Patch {
  import opened Wrappers
  import opened Ints
  import opened Text

  /** The lighting function a DMX slot controls: a closed set plus an open `Custom` kind. */
  datatype ChannelType =
    // colour channels
    | Red | Green | Blue | Amber | Lime | Cyan | Magenta | Yellow
    | White | WarmWhite | CoolWhite | Uv
    // movement
    | Pan | Tilt | PanFine | TiltFine
    // general
    | Intensity | Dimmer | Strobe
    // colour mixing and selection
    | ColorMacros | ColorTemperature | Hue | Saturation
    // effects
    | Gobo | GoboRotation | Prism | Iris | Focus | Zoom | Frost
    // control
    | ModeSelect | Speed | SoundSensitivity
    // anything else, named
    | Custom(name: string)

  /** `OflCapability`: only the `type` and `color` fields are read. */
  datatype OflCapability = OflCapability(capabilityType: string, color: Option<string>)

  /** `OflChannel`: a single `capability` or a list of `capabilities`, both optional. */
  datatype OflChannel = OflChannel(capability: Option<OflCapability>, capabilities: Option<seq<OflCapability>>)

  /** `OflMode`: a name and the ordered channel names that make up its footprint. */
  datatype OflMode = OflMode(name: string, channels: seq<string>)

  /** `OflFixture`: its name, its channel definitions by name, and its modes in declaration order. */
  datatype OflFixture = OflFixture(name: string, availableChannels: map<string, OflChannel>, modes: seq<OflMode>)

  /** `FixtureProfile`: one fixture type in one mode; `channels` maps a kind to its 0-based offset. */
  datatype FixtureProfile = FixtureProfile(name: string, footprint: u8, channels: map<ChannelType, u8>)

  /** `PatchedFixture`: a profile placed at a patch channel and a DMX start address. */
  datatype PatchedFixture = PatchedFixture(
    id: string,
    channel: nat,
    profile: FixtureProfile,
    dmxStart: u16,
    labelText: string)

  /** The capability-type strings that map to a named kind (the reverse of `FromOflCapabilityType`). */
  function CapabilityTypesFor(k: ChannelType): set<string> {
    match k
    case Intensity => {"Intensity", "ColorIntensity"}
    case Pan => {"Pan", "PanContinuous"}
    case Tilt => {"Tilt", "TiltContinuous"}
    case ColorMacros => {"ColorPreset"}
    case ColorTemperature => {"ColorTemperature"}
    case Strobe => {"Strobe", "StrobeSpeed", "StrobeDuration"}
    case _ => {}
  }

  /** `ChannelType::from_ofl_capability_type`: exact, case-sensitive match; anything else is `Custom`. */
  function FromOflCapabilityType(capabilityType: string): (k: ChannelType)
    ensures k.Custom? ==> k == Custom(capabilityType)
  {
    match capabilityType
    case "Intensity" => Intensity
    case "ColorIntensity" => Intensity
    case "Pan" => Pan
    case "Tilt" => Tilt
    case "PanContinuous" => Pan
    case "TiltContinuous" => Tilt
    case "ColorPreset" => ColorMacros
    case "ColorTemperature" => ColorTemperature
    case "Strobe" => Strobe
    case "StrobeSpeed" => Strobe
    case "StrobeDuration" => Strobe
    case "Generic" => Custom("Generic")
    case "NoFunction" => Custom("NoFunction")
    case _ => Custom(capabilityType)
  }

  /** The type table agrees with its reverse, in both directions, for every string and kind. */
  lemma CapabilityTypeTable(capabilityType: string, k: ChannelType)
    ensures capabilityType in CapabilityTypesFor(k) <==> (!k.Custom? && FromOflCapabilityType(capabilityType) == k)
  {
  }

  /** The lower-case channel names that map to a named kind (the reverse of `FromOflChannelName`). */
  function ChannelNamesFor(k: ChannelType): set<string> {
    match k
    case Red => {"red"}
    case Green => {"green"}
    case Blue => {"blue"}
    case Amber => {"amber"}
    case Lime => {"lime"}
    case Cyan => {"cyan"}
    case Magenta => {"magenta"}
    case Yellow => {"yellow"}
    case White => {"white"}
    case WarmWhite => {"warm white", "warmwhite"}
    case CoolWhite => {"cool white", "coolwhite"}
    case Uv => {"uv"}
    case Pan => {"pan"}
    case Tilt => {"tilt"}
    case PanFine => {"pan fine"}
    case TiltFine => {"tilt fine"}
    case Intensity => {"intensity"}
    case Dimmer => {"dimmer"}
    case Strobe => {"strobe"}
    case ColorMacros => {"color macros"}
    case ColorTemperature => {"color temperature"}
    case Hue => {"hue"}
    case Saturation => {"saturation"}
    case Gobo => {"gobo"}
    case GoboRotation => {"gobo rotation"}
    case Prism => {"prism"}
    case Iris => {"iris"}
    case Focus => {"focus"}
    case Zoom => {"zoom"}
    case Frost => {"frost"}
    case ModeSelect => {"mode select"}
    case Speed => {"speed"}
    case SoundSensitivity => {"sound sensitivity"}
    case Custom(_) => {}
  }

  /**
   * The arm of `ChannelType::from_ofl_channel_name`'s match that a lower-cased name
   * selects, or `None` for the catch-all arm.
   */
  function NamedKind(lowerName: string): Option<ChannelType>
  {
    match lowerName
    case "red" => Some(Red)
    case "green" => Some(Green)
    case "blue" => Some(Blue)
    case "amber" => Some(Amber)
    case "lime" => Some(Lime)
    case "cyan" => Some(Cyan)
    case "magenta" => Some(Magenta)
    case "yellow" => Some(Yellow)
    case "white" => Some(White)
    case "warm white" => Some(WarmWhite)
    case "warmwhite" => Some(WarmWhite)
    case "cool white" => Some(CoolWhite)
    case "coolwhite" => Some(CoolWhite)
    case "uv" => Some(Uv)
    case "pan" => Some(Pan)
    case "tilt" => Some(Tilt)
    case "pan fine" => Some(PanFine)
    case "tilt fine" => Some(TiltFine)
    case "intensity" => Some(Intensity)
    case "dimmer" => Some(Dimmer)
    case "strobe" => Some(Strobe)
    case "color macros" => Some(ColorMacros)
    case "color temperature" => Some(ColorTemperature)
    case "hue" => Some(Hue)
    case "saturation" => Some(Saturation)
    case "gobo" => Some(Gobo)
    case "gobo rotation" => Some(GoboRotation)
    case "prism" => Some(Prism)
    case "iris" => Some(Iris)
    case "focus" => Some(Focus)
    case "zoom" => Some(Zoom)
    case "frost" => Some(Frost)
    case "mode select" => Some(ModeSelect)
    case "speed" => Some(Speed)
    case "sound sensitivity" => Some(SoundSensitivity)
    case _ => None
  }

  /**
   * `ChannelType::from_ofl_channel_name`: matches the lower-cased name; an unknown
   * name becomes `Custom` carrying the name as given, not lower-cased.
   */
  function FromOflChannelName(channelName: string): (k: ChannelType)
    ensures k.Custom? ==> k == Custom(channelName)
  {
    match NamedKind(AsciiLower(channelName))
    case Some(named) => named
    case None => Custom(channelName)
  }

  /** The match table agrees with its reverse: a lower-case name selects a kind exactly when it is listed for it. */
  lemma NamedKindTable(lowerName: string, k: ChannelType)
    ensures lowerName in ChannelNamesFor(k) <==> NamedKind(lowerName) == Some(k)
  {
    if lowerName in ChannelNamesFor(k) {
      ListedNameSelected(lowerName, k);
    } else {
      SelectedNameIsListed(lowerName);
    }
  }

  /** A listed name selects its kind (split by kind group to keep each proof small). */
  lemma ListedNameSelected(lowerName: string, k: ChannelType)
    requires lowerName in ChannelNamesFor(k)
    ensures NamedKind(lowerName) == Some(k)
  {
    if k.Red? || k.Green? || k.Blue? || k.Amber? || k.Lime? || k.Cyan? ||
         k.Magenta? || k.Yellow? || k.White? || k.WarmWhite? || k.CoolWhite? || k.Uv? {
      ColourNameSelected(lowerName, k);
    } else if k.Pan? || k.Tilt? || k.PanFine? || k.TiltFine? || k.Intensity? || k.Dimmer? ||
                k.Strobe? || k.ColorMacros? || k.ColorTemperature? {
      MovementNameSelected(lowerName, k);
    } else if k.Hue? || k.Saturation? || k.Gobo? || k.GoboRotation? || k.Prism? || k.Iris? {
      EffectNameSelected(lowerName, k);
    } else if k.Focus? || k.Zoom? || k.Frost? {
      OpticsNameSelected(lowerName, k);
    } else if k.ModeSelect? || k.Speed? || k.SoundSensitivity? {
      ControlNameSelected(lowerName, k);
    }
  }

  /** `ListedNameSelected` for the colour kinds. */
  lemma ColourNameSelected(lowerName: string, k: ChannelType)
    requires k.Red? || k.Green? || k.Blue? || k.Amber? || k.Lime? || k.Cyan? ||
             k.Magenta? || k.Yellow? || k.White? || k.WarmWhite? || k.CoolWhite? || k.Uv?
    requires lowerName in ChannelNamesFor(k)
    ensures NamedKind(lowerName) == Some(k)
  {
    if k == Red {
      assert lowerName == "red";
    } else if k == Green {
      assert lowerName == "green";
    } else if k == Blue {
      assert lowerName == "blue";
    } else if k == Amber {
      assert lowerName == "amber";
    } else if k == Lime {
      assert lowerName == "lime";
    } else if k == Cyan {
      assert lowerName == "cyan";
    } else if k == Magenta {
      assert lowerName == "magenta";
    } else if k == Yellow {
      assert lowerName == "yellow";
    } else if k == White {
      assert lowerName == "white";
    } else if k == WarmWhite {
      assert lowerName == "warm white" || lowerName == "warmwhite";
    } else if k == CoolWhite {
      assert lowerName == "cool white" || lowerName == "coolwhite";
    } else {
      assert lowerName == "uv";
    }
  }

  /** `ListedNameSelected` for the movement and general kinds. */
  lemma MovementNameSelected(lowerName: string, k: ChannelType)
    requires k.Pan? || k.Tilt? || k.PanFine? || k.TiltFine? || k.Intensity? || k.Dimmer? ||
             k.Strobe? || k.ColorMacros? || k.ColorTemperature?
    requires lowerName in ChannelNamesFor(k)
    ensures NamedKind(lowerName) == Some(k)
  {
    if k == Pan {
      assert lowerName == "pan";
    } else if k == Tilt {
      assert lowerName == "tilt";
    } else if k == PanFine {
      assert lowerName == "pan fine";
    } else if k == TiltFine {
      assert lowerName == "tilt fine";
    } else if k == Intensity {
      assert lowerName == "intensity";
    } else if k == Dimmer {
      assert lowerName == "dimmer";
    } else if k == Strobe {
      assert lowerName == "strobe";
    } else if k == ColorMacros {
      assert lowerName == "color macros";
    } else {
      assert lowerName == "color temperature";
    }
  }

  /** `ListedNameSelected` for the colour-mixing and effect kinds. */
  lemma EffectNameSelected(lowerName: string, k: ChannelType)
    requires k.Hue? || k.Saturation? || k.Gobo? || k.GoboRotation? || k.Prism? || k.Iris?
    requires lowerName in ChannelNamesFor(k)
    ensures NamedKind(lowerName) == Some(k)
  {
    if k == Hue {
      assert lowerName == "hue";
    } else if k == Saturation {
      assert lowerName == "saturation";
    } else if k == Gobo {
      assert lowerName == "gobo";
    } else if k == GoboRotation {
      assert lowerName == "gobo rotation";
    } else if k == Prism {
      assert lowerName == "prism";
    } else {
      assert lowerName == "iris";
    }
  }

  /** `ListedNameSelected` for the optics kinds. */
  lemma OpticsNameSelected(lowerName: string, k: ChannelType)
    requires k.Focus? || k.Zoom? || k.Frost?
    requires lowerName in ChannelNamesFor(k)
    ensures NamedKind(lowerName) == Some(k)
  {
    if k == Focus {
      assert lowerName == "focus";
    } else if k == Zoom {
      assert lowerName == "zoom";
    } else {
      assert lowerName == "frost";
    }
  }

  /** `ListedNameSelected` for the control kinds. */
  lemma ControlNameSelected(lowerName: string, k: ChannelType)
    requires k.ModeSelect? || k.Speed? || k.SoundSensitivity?
    requires lowerName in ChannelNamesFor(k)
    ensures NamedKind(lowerName) == Some(k)
  {
    if k == ModeSelect {
      assert lowerName == "mode select";
    } else if k == Speed {
      assert lowerName == "speed";
    } else {
      assert lowerName == "sound sensitivity";
    }
  }

  /** A name that selects a kind is listed for it, and no arm yields `Custom`. */
  lemma SelectedNameIsListed(lowerName: string)
    ensures NamedKind(lowerName).Some? ==>
              !NamedKind(lowerName).value.Custom? && lowerName in ChannelNamesFor(NamedKind(lowerName).value)
  {
  }

  /** The name table agrees with its reverse, in both directions, for every name and kind. */
  lemma ChannelNameTable(channelName: string, k: ChannelType)
    ensures AsciiLower(channelName) in ChannelNamesFor(k) <==> (!k.Custom? && FromOflChannelName(channelName) == k)
  {
    NamedKindTable(AsciiLower(channelName), k);
    SelectedNameIsListed(AsciiLower(channelName));
  }

  /** Names that differ only in ASCII case resolve alike; only `Custom` keeps the spelling. */
  lemma ChannelNameIgnoresCase(a: string, b: string)
    requires AsciiLower(a) == AsciiLower(b)
    ensures FromOflChannelName(a).Custom? == FromOflChannelName(b).Custom?
    ensures !FromOflChannelName(a).Custom? ==> FromOflChannelName(a) == FromOflChannelName(b)
  {
    SelectedNameIsListed(AsciiLower(a));
  }
  /**
   * The kind one channel definition resolves to (src/fixture/patch.rs:159-191): a
   * known name wins; otherwise a single `capability` is consulted (a ColorIntensity
   * capability with a colour resolves that colour by name), else the first entry of
   * `capabilities`, else the name's own `Custom` kind.
   */
  function ResolveChannel(channelName: string, definition: OflChannel): ChannelType {
    var fromName := FromOflChannelName(channelName);
    if !fromName.Custom? then fromName
    else match definition.capability
      case Some(capability) =>
        if capability.capabilityType == "ColorIntensity" && capability.color.Some?
        then FromOflChannelName(capability.color.value)
        else FromOflCapabilityType(capability.capabilityType)
      case None =>
        match definition.capabilities
        case Some(capabilities) =>
          if |capabilities| > 0 then FromOflCapabilityType(capabilities[0].capabilityType) else fromName
        case None => fromName
  }

  /** The priority order of `ResolveChannel`, stated as what each input can and cannot change. */
  lemma ResolutionPriority(channelName: string, capability: OflCapability, first: OflCapability,
                           rest1: seq<OflCapability>, rest2: seq<OflCapability>,
                           list1: Option<seq<OflCapability>>, list2: Option<seq<OflCapability>>,
                           d1: OflChannel, d2: OflChannel)
    // a name in the table decides, whatever the capabilities say
    ensures !FromOflChannelName(channelName).Custom? ==>
      ResolveChannel(channelName, d1) == ResolveChannel(channelName, d2) == FromOflChannelName(channelName)
    // a single capability makes the capability list irrelevant
    ensures ResolveChannel(channelName, OflChannel(Some(capability), list1))
         == ResolveChannel(channelName, OflChannel(Some(capability), list2))
    // of a capability list only the first entry is consulted
    ensures ResolveChannel(channelName, OflChannel(None, Some([first] + rest1)))
         == ResolveChannel(channelName, OflChannel(None, Some([first] + rest2)))
    // no capability at all, or an empty list, keeps the name's own kind
    ensures ResolveChannel(channelName, OflChannel(None, None)) == FromOflChannelName(channelName)
    ensures ResolveChannel(channelName, OflChannel(None, Some([]))) == FromOflChannelName(channelName)
  {
  }

  /** An unknown name with a coloured ColorIntensity capability takes the colour's kind. */
  lemma ColorIntensityUsesColor(channelName: string, color: string, list: Option<seq<OflCapability>>)
    requires FromOflChannelName(channelName).Custom?
    ensures ResolveChannel(channelName, OflChannel(Some(OflCapability("ColorIntensity", Some(color))), list))
         == FromOflChannelName(color)
  {
  }

  /** The kind a mode channel name resolves to, or `None` when the fixture does not define it. */
  function Resolved(fixture: OflFixture, channelName: string): Option<ChannelType> {
    if channelName in fixture.availableChannels
    then Some(ResolveChannel(channelName, fixture.availableChannels[channelName]))
    else None
  }

  /** The kind each mode channel name resolves to, position by position. */
  function ChannelKinds(fixture: OflFixture, names: seq<string>): (kinds: seq<Option<ChannelType>>)
    ensures |kinds| == |names|
    ensures forall i | 0 <= i < |names| :: kinds[i] == Resolved(fixture, names[i])
  {
    seq(|names|, i requires 0 <= i < |names| => Resolved(fixture, names[i]))
  }

  /**
   * The kind-to-offset map built from the resolved kinds: each defined position
   * inserts its kind at its own offset (truncated as `as u8` does); a later
   * insertion of the same kind overwrites an earlier one.
   */
  function OffsetMap(kinds: seq<Option<ChannelType>>): map<ChannelType, u8>
    decreases |kinds|
  {
    if kinds == [] then map[]
    else
      var i := |kinds| - 1;
      var earlier := OffsetMap(kinds[..i]);
      match kinds[i]
      case Some(k) => earlier[k := AsU8(i)]
      case None => earlier
  }

  /** The kind-to-offset map of a mode's channel names. */
  function ProfileChannels(fixture: OflFixture, names: seq<string>): map<ChannelType, u8> {
    OffsetMap(ChannelKinds(fixture, names))
  }

  /** The profile `FixtureProfile::from_ofl_fixture` builds for one fixture and mode. */
  function Profile(fixture: OflFixture, mode: OflMode): FixtureProfile {
    FixtureProfile(fixture.name + " (" + mode.name + ")", AsU8(|mode.channels|), ProfileChannels(fixture, mode.channels))
  }

  /** `FixtureProfile::from_ofl_fixture`: one pass over the mode's channels inserting into a map. */
  method FromOflFixture(fixture: OflFixture, mode: OflMode) returns (profile: FixtureProfile)
    ensures profile == Profile(fixture, mode)
  {
    ghost var kinds := ChannelKinds(fixture, mode.channels);
    var channels: map<ChannelType, u8> := map[];
    var offset := 0;
    while offset < |mode.channels|
      invariant 0 <= offset <= |mode.channels|
      invariant channels == OffsetMap(kinds[..offset])
    {
      var channelName := mode.channels[offset];
      assert kinds[..offset + 1][..offset] == kinds[..offset];
      if channelName in fixture.availableChannels {
        var channelType := ResolveChannel(channelName, fixture.availableChannels[channelName]);
        channels := channels[channelType := AsU8(offset)];
      }
      offset := offset + 1;
    }
    assert kinds[..offset] == kinds;
    profile := FixtureProfile(fixture.name + " (" + mode.name + ")", AsU8(|mode.channels|), channels);
  }

  /** A kind is in the map exactly when some position resolves to it. */
  lemma {:induction false} OffsetMapKeys(kinds: seq<Option<ChannelType>>, k: ChannelType)
    ensures k in OffsetMap(kinds) <==> Some(k) in kinds
    decreases |kinds|
  {
    if kinds != [] {
      var last := |kinds| - 1;
      OffsetMapKeys(kinds[..last], k);
      assert kinds == kinds[..last] + [kinds[last]];
    }
  }

  /** A position whose kind no later position shares is the kind's offset. */
  lemma {:induction false} OffsetIsLastPosition(kinds: seq<Option<ChannelType>>, i: nat)
    requires i < |kinds| && kinds[i].Some?
    requires forall j | i < j < |kinds| :: kinds[j] != kinds[i]
    ensures kinds[i].value in OffsetMap(kinds) && OffsetMap(kinds)[kinds[i].value] == AsU8(i)
    decreases |kinds|
  {
    var last := |kinds| - 1;
    if i < last {
      OffsetIsLastPosition(kinds[..last], i);
    }
  }

  /** Every entry of the map is the offset of the last position of its kind. */
  lemma {:induction false} OffsetHasPosition(kinds: seq<Option<ChannelType>>, k: ChannelType)
    requires k in OffsetMap(kinds)
    ensures exists i | 0 <= i < |kinds| ::
      kinds[i] == Some(k) && OffsetMap(kinds)[k] == AsU8(i) && forall j | i < j < |kinds| :: kinds[j] != Some(k)
    decreases |kinds|
  {
    var last := |kinds| - 1;
    var earlier := kinds[..last];
    if kinds[last] == Some(k) {
      assert kinds[last] == Some(k) && OffsetMap(kinds)[k] == AsU8(last);
    } else {
      OffsetHasPosition(earlier, k);
      var i :| 0 <= i < |earlier| && earlier[i] == Some(k) && OffsetMap(earlier)[k] == AsU8(i)
        && forall j | i < j < |earlier| :: earlier[j] != Some(k);
      assert kinds[i] == Some(k) && OffsetMap(kinds)[k] == AsU8(i);
    }
  }

  /**
   * Last write wins: a defined channel at position `i` that no later channel shares
   * its kind with ends up in the map at offset `i`.
   */
  lemma ProfileOffsetIsLastPosition(fixture: OflFixture, names: seq<string>, i: nat)
    requires i < |names| && Resolved(fixture, names[i]).Some?
    requires forall j | i < j < |names| :: Resolved(fixture, names[j]) != Resolved(fixture, names[i])
    ensures Resolved(fixture, names[i]).value in ProfileChannels(fixture, names)
    ensures ProfileChannels(fixture, names)[Resolved(fixture, names[i]).value] == AsU8(i)
  {
    OffsetIsLastPosition(ChannelKinds(fixture, names), i);
  }

  /** Every entry of the map comes from a defined channel, at the position of the last channel of that kind. */
  lemma ProfileEntryHasPosition(fixture: OflFixture, names: seq<string>, k: ChannelType)
    requires k in ProfileChannels(fixture, names)
    ensures exists i | 0 <= i < |names| ::
      Resolved(fixture, names[i]) == Some(k) && ProfileChannels(fixture, names)[k] == AsU8(i)
      && forall j | i < j < |names| :: Resolved(fixture, names[j]) != Some(k)
  {
    var kinds := ChannelKinds(fixture, names);
    OffsetHasPosition(kinds, k);
    var i :| 0 <= i < |kinds| && kinds[i] == Some(k) && OffsetMap(kinds)[k] == AsU8(i)
      && forall j | i < j < |kinds| :: kinds[j] != Some(k);
    assert Resolved(fixture, names[i]) == Some(k) && ProfileChannels(fixture, names)[k] == AsU8(i);
  }

  /** The map has an entry for exactly the kinds some defined channel of the mode resolves to. */
  lemma ProfileKinds(fixture: OflFixture, names: seq<string>, k: ChannelType)
    ensures k in ProfileChannels(fixture, names) <==> exists i | 0 <= i < |names| :: Resolved(fixture, names[i]) == Some(k)
  {
    var kinds := ChannelKinds(fixture, names);
    OffsetMapKeys(kinds, k);
    if i :| 0 <= i < |names| && Resolved(fixture, names[i]) == Some(k) {
      assert kinds[i] == Some(k);
    }
  }

  /** Every offset is below the footprint, and the footprint is the channel count, when a mode has at most 255 channels. */
  lemma OffsetsWithinFootprint(fixture: OflFixture, mode: OflMode)
    requires |mode.channels| <= 255
    ensures Profile(fixture, mode).footprint == |mode.channels|
    ensures forall k | k in Profile(fixture, mode).channels :: Profile(fixture, mode).channels[k] < Profile(fixture, mode).footprint
  {
    forall k | k in Profile(fixture, mode).channels
      ensures Profile(fixture, mode).channels[k] < |mode.channels|
    {
      ProfileEntryHasPosition(fixture, mode.channels, k);
    }
  }

  /** Distinct kinds get distinct offsets when a mode has at most 256 channels. */
  lemma OffsetsDistinct(fixture: OflFixture, mode: OflMode, k1: ChannelType, k2: ChannelType)
    requires |mode.channels| <= 256
    requires k1 in Profile(fixture, mode).channels && k2 in Profile(fixture, mode).channels && k1 != k2
    ensures Profile(fixture, mode).channels[k1] != Profile(fixture, mode).channels[k2]
  {
    ProfileEntryHasPosition(fixture, mode.channels, k1);
    ProfileEntryHasPosition(fixture, mode.channels, k2);
  }

  /** `ETC_SOURCE_FOUR_CONVENTIONAL`: the built-in single-channel dimmer profile. */
  function EtcSourceFourConventional(): (profile: FixtureProfile)
    ensures profile.footprint == 1 && profile.channels.Keys == {Intensity} && profile.channels[Intensity] == 0
    ensures forall k | k in profile.channels :: profile.channels[k] < profile.footprint
  {
    FixtureProfile("ETC Source Four Conventional", 1, map[Intensity := 0])
  }
}
