/**
 * The older `Universe` of src/fixture/mod.rs. It behaves like the one in
 * src/universe/mod.rs, but reports errors as plain strings; its Intensity, Red,
 * Green and Blue kinds are the ones declared in src/fixture/patch.rs. Every method
 * is proved against the frame functions of `Universes`, with the error turned into
 * its text.
 */
module FixtureUniverse {
  import opened Wrappers
  import opened Ints
  import opened Text
  import opened Patch
  import U = Universes

  /** The outcome of an operation as this copy reports it: the error's text. */
  function AsText(status: U.Status): (r: Result<(), string>)
    ensures r.Ok? <==> status.Ok?
    ensures status.Err? ==> r.error == U.Message(status.error)
  {
    match status
    case Ok(_) => Ok(())
    case Err(e) => Err(U.Message(e))
  }

  /** The fixed prefix of the missing-fixture text: the channel number follows it. */
  lemma NoFixturePrefix(channel: nat)
    ensures U.Message(U.NoFixture(channel))[..28] == "No fixture found on channel "
    ensures U.Message(U.NoFixture(channel))[28..] == Decimal(channel)
  {
  }

  /** Turning errors into text loses nothing: different errors have different texts. */
  lemma MessageDeterminesError(e1: U.UniverseError, e2: U.UniverseError)
    requires U.Message(e1) == U.Message(e2)
    ensures e1 == e2
  {
    assert U.Message(e1)[0] == U.Message(e2)[0] && U.Message(e1)[4] == U.Message(e2)[4];
    if e1.NoFixture? && e2.NoFixture? {
      NoFixturePrefix(e1.channel);
      NoFixturePrefix(e2.channel);
      ParseDecimal(e1.channel, e1.channel + e2.channel);
      ParseDecimal(e2.channel, e1.channel + e2.channel);
    }
  }

  class Universe {
    const id: u8
    var fixtures: U.FixtureTable
    const dmxBuffer: array<u8>

    ghost predicate Valid()
      reads this
    {
      dmxBuffer.Length == U.DMX_BUFFER_LENGTH && U.Consistent(fixtures)
    }

    function Output(): U.Frame
      reads this, dmxBuffer
      requires Valid()
    {
      dmxBuffer[..]
    }

    /** `new`. */
    constructor (id: u8)
      ensures Valid() && fresh(dmxBuffer)
      ensures this.id == id && fixtures == []
      ensures Output() == seq(U.DMX_BUFFER_LENGTH, _ => 0)
    {
      this.id := id;
      fixtures := [];
      dmxBuffer := new u8[U.DMX_BUFFER_LENGTH](_ => 0);
    }

    /** `from_fixtures`. */
    static method FromFixtures(id: u8, patch: seq<PatchedFixture>) returns (u: Universe)
      ensures fresh(u) && fresh(u.dmxBuffer) && u.Valid()
      ensures u.id == id && u.fixtures == U.PatchAll([], patch)
      ensures u.Output() == seq(U.DMX_BUFFER_LENGTH, _ => 0)
    {
      u := new Universe(id);
      var i := 0;
      while i < |patch|
        invariant 0 <= i <= |patch|
        invariant fresh(u) && fresh(u.dmxBuffer) && u.Valid() && u.id == id
        invariant u.fixtures == U.PatchAll([], patch[..i])
        invariant u.Output() == seq(U.DMX_BUFFER_LENGTH, _ => 0)
      {
        u.AddFixture(patch[i]);
        assert patch[..i + 1][..i] == patch[..i];
        i := i + 1;
      }
      assert patch[..i] == patch;
    }

    /** `add_fixture`. */
    method AddFixture(fixture: PatchedFixture)
      requires Valid()
      modifies this
      ensures Valid() && fixtures == U.WithFixture(old(fixtures), fixture)
    {
      var channel := fixture.channel;
      if channel >= |fixtures| {
        fixtures := fixtures + seq(channel + 1 - |fixtures|, _ => None);
      }
      fixtures := fixtures[channel := Some(fixture)];
    }

    /** `remove_fixture`. */
    method RemoveFixture(channel: nat) returns (removed: Option<PatchedFixture>)
      requires Valid()
      modifies this
      ensures Valid() && fixtures == U.WithoutFixture(old(fixtures), channel)
      ensures removed == U.FixtureAt(old(fixtures), channel)
    {
      if channel < |fixtures| {
        removed := fixtures[channel];
        fixtures := fixtures[channel := None];
      } else {
        removed := None;
      }
    }

    /** `set_dmx_address`, with the error as text. */
    method SetDmxAddress(address: nat, value: u8) returns (status: Result<(), string>)
      requires Valid()
      modifies dmxBuffer
      ensures Valid()
      ensures var r := U.Poke(old(Output()), address, value);
        Output() == r.0 && status == AsText(r.1)
    {
      if address == 0 {
        return Err("DMX address 0 is reserved for start code");
      }
      if address >= 513 {
        return Err("DMX address must be between 1 and 512");
      }
      dmxBuffer[address] := value;
      status := Ok(());
    }

    /** `set_fixture_values`, returning the first failing write's text. */
    method SetFixtureValues(channel: nat, values: seq<(ChannelType, u8)>) returns (status: Result<(), string>)
      requires Valid()
      modifies dmxBuffer
      ensures Valid()
      ensures var r := U.WriteFixture(old(Output()), fixtures, channel, values);
        Output() == r.0 && status == AsText(r.1)
    {
      var found := U.FixtureAt(fixtures, channel);
      if found.None? {
        return Err("No fixture found on channel " + Decimal(channel));
      }
      var fixture := found.value;
      var updates: seq<(nat, u8)> := [];
      var i := 0;
      while i < |values|
        invariant 0 <= i <= |values|
        invariant updates == U.FixtureUpdates(fixture, values[..i])
      {
        var (kind, newValue) := values[i];
        if kind in fixture.profile.channels {
          var bufferIndex := fixture.dmxStart + fixture.profile.channels[kind] + 1;
          updates := updates + [(bufferIndex, newValue)];
        }
        assert values[..i + 1][..i] == values[..i];
        i := i + 1;
      }
      assert values[..i] == values;
      U.TwoPhaseWriteIsDirect(old(Output()), fixture, values);
      var j := 0;
      while j < |updates|
        invariant 0 <= j <= |updates|
        invariant Valid()
        invariant (Output(), Ok(())) == U.ApplyUpdates(old(Output()), updates[..j])
      {
        assert updates[..j + 1][..j] == updates[..j];
        ghost var poked := U.Poke(Output(), updates[j].0, updates[j].1);
        assert U.ApplyUpdates(old(Output()), updates[..j + 1]) == poked;
        var written := SetDmxAddress(updates[j].0, updates[j].1);
        if written.Err? {
          U.ApplyUpdatesSticky(old(Output()), updates, j + 1);
          assert U.WriteFixture(old(Output()), fixtures, channel, values) == poked;
          return written;
        }
        j := j + 1;
      }
      assert updates[..j] == updates;
      status := Ok(());
    }

    /** `set_intensity`: only the Intensity kind. */
    method SetIntensity(channel: nat, intensity: u8) returns (status: Result<(), string>)
      requires Valid()
      modifies dmxBuffer
      ensures Valid()
      ensures var r := U.WriteFixture(old(Output()), fixtures, channel, [(Intensity, intensity)]);
        Output() == r.0 && status == AsText(r.1)
    {
      status := SetFixtureValues(channel, [(Intensity, intensity)]);
    }

    /** `set_rgb`: Red, Green, Blue, in that order. */
    method SetRgb(channel: nat, r: u8, g: u8, b: u8) returns (status: Result<(), string>)
      requires Valid()
      modifies dmxBuffer
      ensures Valid()
      ensures var w := U.WriteFixture(old(Output()), fixtures, channel, [(Red, r), (Green, g), (Blue, b)]);
        Output() == w.0 && status == AsText(w.1)
    {
      status := SetFixtureValues(channel, [(Red, r), (Green, g), (Blue, b)]);
    }

    /** `blackout`: fixture by fixture, returning the first error's text. */
    method Blackout() returns (status: Result<(), string>)
      requires Valid()
      modifies dmxBuffer
      ensures Valid()
      ensures var r := U.BlackoutSpec(old(Output()), fixtures);
        Output() == r.0 && status == AsText(r.1)
    {
      var channels := U.PatchedChannels(fixtures);
      var i := 0;
      while i < |channels|
        invariant 0 <= i <= |channels|
        invariant Valid()
        invariant (Output(), Ok(())) == U.BlackoutFold(old(Output()), fixtures, channels[..i])
      {
        assert channels[..i + 1][..i] == channels[..i];
        ghost var zeroed := U.WriteFixture(Output(), fixtures, channels[i], [(Intensity, 0)]);
        assert U.BlackoutFold(old(Output()), fixtures, channels[..i + 1]) == zeroed;
        var written := SetIntensity(channels[i], 0);
        if written.Err? {
          U.BlackoutFoldSticky(old(Output()), fixtures, channels, i + 1);
          assert U.BlackoutSpec(old(Output()), fixtures) == zeroed;
          return written;
        }
        i := i + 1;
      }
      assert channels[..i] == channels;
      status := Ok(());
    }
  }
}
