/**
 * The DMX universe of src/universe/mod.rs: a sparse patch table, a 513-byte output
 * frame laid out as in ANSI E1.11 (DMX512-A; slot 0 is the start code, slots 1-512
 * carry data), every write funnelled through one bounds check, and the per-command
 * step of the output thread.
 *
 * The pure functions below say what each operation does to a frame; the class
 * `Universe` performs the same operations in place and is proved against them.
 */
module Universes {
  import opened Wrappers
  import opened Ints
  import opened Text
  import opened Patch

  /** `DMX_BUFFER_LENGTH`: the start code plus 512 data slots. */
  const DMX_BUFFER_LENGTH: nat := 513

  /** A whole DMX frame, `[u8; 513]`. */
  type Frame = s: seq<u8> | |s| == 513 witness seq(513, _ => 0)

  /** The errors of the universe; `Message` gives the text each one carries. */
  datatype UniverseError = StartCodeReserved | AddressOutOfRange | NoFixture(channel: nat)

  type Status = Result<(), UniverseError>

  function Message(e: UniverseError): string {
    match e
    case StartCodeReserved => "DMX address 0 is reserved for start code"
    case AddressOutOfRange => "DMX address must be between 1 and 512"
    case NoFixture(channel) => "No fixture found on channel " + Decimal(channel)
  }

  /** The patch table, `Vec<Option<PatchedFixture>>`, indexed by patch channel. */
  type FixtureTable = seq<Option<PatchedFixture>>

  /** Every patched fixture sits at the index its own `channel` names. */
  ghost predicate Consistent(table: FixtureTable) {
    forall i | 0 <= i < |table| && table[i].Some? :: table[i].value.channel == i
  }

  // ---------------------------------------------------------------------------
  // The patch table

  /** `get_fixture`: the entry at `channel`, or `None` past the end of the table. */
  function FixtureAt(table: FixtureTable, channel: nat): (r: Option<PatchedFixture>)
    ensures r.Some? <==> channel < |table| && table[channel].Some?
    ensures r.Some? ==> table[channel] == r
  {
    if channel < |table| then table[channel] else None
  }

  /** `add_fixture`: grows the table with empty slots up to the fixture's channel and places it there. */
  function WithFixture(table: FixtureTable, fixture: PatchedFixture): (t: FixtureTable)
    ensures |t| == if fixture.channel < |table| then |table| else fixture.channel + 1
    ensures t[fixture.channel] == Some(fixture)
    ensures forall i | 0 <= i < |table| && i != fixture.channel :: t[i] == table[i]
    ensures forall i | |table| <= i < |t| && i != fixture.channel :: t[i] == None
    ensures Consistent(table) ==> Consistent(t)
  {
    var grown := if fixture.channel >= |table| then table + seq(fixture.channel + 1 - |table|, _ => None) else table;
    grown[fixture.channel := Some(fixture)]
  }

  /** `remove_fixture`: empties the slot (`take()`); the table never shrinks. */
  function WithoutFixture(table: FixtureTable, channel: nat): (t: FixtureTable)
    ensures |t| == |table|
    ensures channel < |table| ==> t[channel] == None
    ensures forall i | 0 <= i < |table| && i != channel :: t[i] == table[i]
    ensures Consistent(table) ==> Consistent(t)
  {
    if channel < |table| then table[channel := None] else table
  }

  /** Looking a fixture up after patching or unpatching sees exactly that change. */
  lemma LookupAfterPatch(table: FixtureTable, fixture: PatchedFixture, channel: nat)
    ensures FixtureAt(WithFixture(table, fixture), fixture.channel) == Some(fixture)
    ensures channel != fixture.channel ==> FixtureAt(WithFixture(table, fixture), channel) == FixtureAt(table, channel)
    ensures FixtureAt(WithoutFixture(table, channel), channel) == None
  {
  }

  /** `from_fixtures`: patches each fixture in turn. */
  function PatchAll(table: FixtureTable, fixtures: seq<PatchedFixture>): (t: FixtureTable)
    ensures Consistent(table) ==> Consistent(t)
    decreases |fixtures|
  {
    if fixtures == [] then table
    else WithFixture(PatchAll(table, fixtures[..|fixtures| - 1]), fixtures[|fixtures| - 1])
  }

  // ---------------------------------------------------------------------------
  // Writing the frame

  /** `set_dmx_address`: the single bounds check every write goes through. */
  function Poke(buffer: Frame, address: nat, value: u8): (r: (Frame, Status))
    ensures r.1.Ok? <==> 1 <= address <= 512
    ensures address == 0 ==> r.1 == Err(StartCodeReserved)
    ensures address >= 513 ==> r.1 == Err(AddressOutOfRange)
    ensures r.1.Ok? ==> r.0[address] == value
    ensures forall i | 0 <= i < 513 && i != address :: r.0[i] == buffer[i]
    ensures r.1.Err? ==> r.0 == buffer
    ensures r.0[0] == buffer[0]
  {
    if address == 0 then (buffer, Err(StartCodeReserved))
    else if address >= 513 then (buffer, Err(AddressOutOfRange))
    else (buffer[address := value], Ok(()))
  }

  /** The buffer index a fixture's kind is written to: `dmx_start + offset + 1`. */
  function Slot(fixture: PatchedFixture, kind: ChannelType): nat
    requires kind in fixture.profile.channels
  {
    fixture.dmxStart + fixture.profile.channels[kind] + 1
  }

  /** The pair `entry` is one the fixture supports, and it is written at `slot`. */
  predicate Targets(fixture: PatchedFixture, entry: (ChannelType, u8), slot: nat) {
    entry.0 in fixture.profile.channels && Slot(fixture, entry.0) == slot
  }

  /** The first loop of `set_fixture_values`: the (index, value) list, unsupported kinds dropped. */
  function FixtureUpdates(fixture: PatchedFixture, values: seq<(ChannelType, u8)>): seq<(nat, u8)>
    decreases |values|
  {
    if values == [] then []
    else
      var last := values[|values| - 1];
      var earlier := FixtureUpdates(fixture, values[..|values| - 1]);
      if last.0 in fixture.profile.channels then earlier + [(Slot(fixture, last.0), last.1)] else earlier
  }

  /** The second loop of `set_fixture_values`: write each update in order, stop at the first error. */
  function ApplyUpdates(buffer: Frame, updates: seq<(nat, u8)>): (r: (Frame, Status))
    ensures r.0[0] == buffer[0]
    decreases |updates|
  {
    if updates == [] then (buffer, Ok(()))
    else
      var last := updates[|updates| - 1];
      var earlier := ApplyUpdates(buffer, updates[..|updates| - 1]);
      if earlier.1.Err? then earlier else Poke(earlier.0, last.0, last.1)
  }

  /** Once a prefix of the updates has failed, the rest change nothing. */
  lemma {:induction false} ApplyUpdatesSticky(buffer: Frame, updates: seq<(nat, u8)>, n: nat)
    requires n <= |updates| && ApplyUpdates(buffer, updates[..n]).1.Err?
    ensures ApplyUpdates(buffer, updates) == ApplyUpdates(buffer, updates[..n])
    decreases |updates|
  {
    if n < |updates| {
      var init := updates[..|updates| - 1];
      assert init[..n] == updates[..n];
      ApplyUpdatesSticky(buffer, init, n);
    } else {
      assert updates[..n] == updates;
    }
  }

  /**
   * The reference meaning of a fixture write: go through the requested (kind, value)
   * pairs in order, skip the kinds the profile lacks, write the others, stop at the
   * first write that fails.
   */
  function WriteValues(buffer: Frame, fixture: PatchedFixture, values: seq<(ChannelType, u8)>): (r: (Frame, Status))
    ensures r.0[0] == buffer[0]
    decreases |values|
  {
    if values == [] then (buffer, Ok(()))
    else
      var last := values[|values| - 1];
      var earlier := WriteValues(buffer, fixture, values[..|values| - 1]);
      if earlier.1.Err? || last.0 !in fixture.profile.channels then earlier
      else Poke(earlier.0, Slot(fixture, last.0), last.1)
  }

  /** Collecting the updates first and applying them afterwards is the same as writing as one goes. */
  lemma {:induction false} TwoPhaseWriteIsDirect(buffer: Frame, fixture: PatchedFixture, values: seq<(ChannelType, u8)>)
    ensures ApplyUpdates(buffer, FixtureUpdates(fixture, values)) == WriteValues(buffer, fixture, values)
    decreases |values|
  {
    if values != [] {
      var init := values[..|values| - 1];
      var last := values[|values| - 1];
      TwoPhaseWriteIsDirect(buffer, fixture, init);
      var earlier := FixtureUpdates(fixture, init);
      if last.0 in fixture.profile.channels {
        var ups := earlier + [(Slot(fixture, last.0), last.1)];
        assert ups[..|ups| - 1] == earlier;
      }
    }
  }

  /** A fixture write succeeds exactly when every supported kind's slot is at most 512. */
  lemma {:induction false} WriteValuesStatus(buffer: Frame, fixture: PatchedFixture, values: seq<(ChannelType, u8)>)
    ensures WriteValues(buffer, fixture, values).1.Ok?
        <==> forall p | 0 <= p < |values| && values[p].0 in fixture.profile.channels :: Slot(fixture, values[p].0) <= 512
    ensures WriteValues(buffer, fixture, values).1.Err? ==> WriteValues(buffer, fixture, values).1 == Err(AddressOutOfRange)
    decreases |values|
  {
    if values != [] {
      var init := values[..|values| - 1];
      WriteValuesStatus(buffer, fixture, init);
      assert forall p | 0 <= p < |init| :: init[p] == values[p];
    }
  }

  /** A slot that no supported pair targets keeps its old value, whether or not the write fails. */
  lemma {:induction false} WriteValuesUntouched(buffer: Frame, fixture: PatchedFixture, values: seq<(ChannelType, u8)>, slot: nat)
    requires slot < 513
    requires forall p | 0 <= p < |values| :: !Targets(fixture, values[p], slot)
    ensures WriteValues(buffer, fixture, values).0[slot] == buffer[slot]
    decreases |values|
  {
    if values != [] {
      var init := values[..|values| - 1];
      assert forall p | 0 <= p < |init| :: init[p] == values[p];
      WriteValuesUntouched(buffer, fixture, init, slot);
    }
  }

  /** On success a slot holds the value of the last supported pair that targets it. */
  lemma {:induction false} WriteValuesLastWins(buffer: Frame, fixture: PatchedFixture, values: seq<(ChannelType, u8)>, slot: nat, p: nat)
    requires slot < 513 && p < |values| && Targets(fixture, values[p], slot)
    requires forall q | p < q < |values| :: !Targets(fixture, values[q], slot)
    requires WriteValues(buffer, fixture, values).1.Ok?
    ensures WriteValues(buffer, fixture, values).0[slot] == values[p].1
    decreases |values|
  {
    var init := values[..|values| - 1];
    if p < |values| - 1 {
      assert forall q | 0 <= q < |init| :: init[q] == values[q];
      WriteValuesLastWins(buffer, fixture, init, slot, p);
    }
  }

  /**
   * At the first supported pair whose slot is past 512 the write stops with an error;
   * every earlier write stays applied.
   */
  lemma {:induction false} WriteValuesStopsAtFirstError(buffer: Frame, fixture: PatchedFixture, values: seq<(ChannelType, u8)>, p: nat)
    requires p < |values| && values[p].0 in fixture.profile.channels && Slot(fixture, values[p].0) > 512
    requires forall q | 0 <= q < p && values[q].0 in fixture.profile.channels :: Slot(fixture, values[q].0) <= 512
    ensures WriteValues(buffer, fixture, values[..p]).1.Ok?
    ensures WriteValues(buffer, fixture, values) == (WriteValues(buffer, fixture, values[..p]).0, Err(AddressOutOfRange))
    decreases |values|
  {
    WriteValuesStatus(buffer, fixture, values[..p]);
    var init := values[..|values| - 1];
    if p < |values| - 1 {
      assert init[..p] == values[..p];
      WriteValuesStopsAtFirstError(buffer, fixture, init, p);
    } else {
      assert init == values[..p];
    }
  }

  /** `set_fixture_values`: no fixture at the channel is an error that writes nothing. */
  function WriteFixture(buffer: Frame, table: FixtureTable, channel: nat, values: seq<(ChannelType, u8)>): (r: (Frame, Status))
    ensures FixtureAt(table, channel).None? ==> r == (buffer, Err(NoFixture(channel)))
    ensures r.0[0] == buffer[0]
  {
    match FixtureAt(table, channel)
    case None => (buffer, Err(NoFixture(channel)))
    case Some(fixture) => WriteValues(buffer, fixture, values)
  }

  /** A single supported kind whose slot fits lands at `dmx_start + offset + 1` and nowhere else. */
  lemma SingleWriteLandsAtSlot(buffer: Frame, table: FixtureTable, channel: nat, kind: ChannelType, value: u8)
    requires FixtureAt(table, channel).Some? && kind in FixtureAt(table, channel).value.profile.channels
    requires Slot(FixtureAt(table, channel).value, kind) <= 512
    ensures WriteFixture(buffer, table, channel, [(kind, value)])
         == (buffer[Slot(FixtureAt(table, channel).value, kind) := value], Ok(()))
  {
    var fixture := FixtureAt(table, channel).value;
    assert [(kind, value)][..0] == [];
    assert WriteValues(buffer, fixture, [(kind, value)]) == Poke(buffer, Slot(fixture, kind), value);
  }

  // ---------------------------------------------------------------------------
  // Blackout

  /** `fixtures.iter().flatten().map(|f| f.channel)`: the channels of the patched fixtures in table order. */
  function PatchedChannels(table: FixtureTable): seq<nat>
    decreases |table|
  {
    if table == [] then []
    else
      var last := table[|table| - 1];
      PatchedChannels(table[..|table| - 1]) + if last.Some? then [last.value.channel] else []
  }

  /** In a consistent table the patched channels are exactly the occupied indices. */
  lemma {:induction false} PatchedChannelsOccupied(table: FixtureTable, c: nat)
    requires Consistent(table)
    ensures c in PatchedChannels(table) <==> c < |table| && table[c].Some?
    decreases |table|
  {
    if table != [] {
      var init := table[..|table| - 1];
      assert Consistent(init) by {
        forall i | 0 <= i < |init| && init[i].Some? ensures init[i].value.channel == i {
          assert init[i] == table[i];
        }
      }
      PatchedChannelsOccupied(init, c);
      if c < |init| {
        assert init[c] == table[c];
      }
    }
  }

  /** The patch entry `channel` drives its Intensity from `slot`. */
  predicate DrivesIntensityAt(table: FixtureTable, channel: nat, slot: nat) {
    FixtureAt(table, channel).Some? && Targets(FixtureAt(table, channel).value, (Intensity, 0), slot)
  }

  /** The fixture has no Intensity, or its Intensity slot fits in the frame. */
  predicate IntensityFits(fixture: PatchedFixture) {
    Intensity in fixture.profile.channels ==> Slot(fixture, Intensity) <= 512
  }

  /** `blackout`'s loop: `set_intensity(channel, 0)` for each channel in turn, stopping at the first error. */
  function BlackoutFold(buffer: Frame, table: FixtureTable, channels: seq<nat>): (r: (Frame, Status))
    ensures r.0[0] == buffer[0]
    decreases |channels|
  {
    if channels == [] then (buffer, Ok(()))
    else
      var earlier := BlackoutFold(buffer, table, channels[..|channels| - 1]);
      if earlier.1.Err? then earlier
      else WriteFixture(earlier.0, table, channels[|channels| - 1], [(Intensity, 0)])
  }

  /** `blackout`. */
  function BlackoutSpec(buffer: Frame, table: FixtureTable): (Frame, Status) {
    BlackoutFold(buffer, table, PatchedChannels(table))
  }

  /** Once a prefix of the channels has failed, the rest change nothing. */
  lemma {:induction false} BlackoutFoldSticky(buffer: Frame, table: FixtureTable, channels: seq<nat>, n: nat)
    requires n <= |channels| && BlackoutFold(buffer, table, channels[..n]).1.Err?
    ensures BlackoutFold(buffer, table, channels) == BlackoutFold(buffer, table, channels[..n])
    decreases |channels|
  {
    if n < |channels| {
      var init := channels[..|channels| - 1];
      assert init[..n] == channels[..n];
      BlackoutFoldSticky(buffer, table, init, n);
    } else {
      assert channels[..n] == channels;
    }
  }

  /** One `set_intensity(channel, 0)` step. */
  lemma ZeroIntensityStep(buffer: Frame, table: FixtureTable, channel: nat)
    ensures var r := WriteFixture(buffer, table, channel, [(Intensity, 0)]);
      && (r.1.Ok? <==> FixtureAt(table, channel).Some? && IntensityFits(FixtureAt(table, channel).value))
      && (forall j | 0 <= j < 513 :: r.0[j] == buffer[j] || r.0[j] == 0)
      && (forall j | 0 <= j < 513 && !DrivesIntensityAt(table, channel, j) :: r.0[j] == buffer[j])
      && (r.1.Ok? && FixtureAt(table, channel).Some? && Intensity in FixtureAt(table, channel).value.profile.channels
          ==> r.0[Slot(FixtureAt(table, channel).value, Intensity)] == 0)
  {
    assert [(Intensity, 0 as u8)][..0] == [];
  }

  /** What the blackout loop does over any list of channels. */
  lemma {:induction false} BlackoutFoldEffect(buffer: Frame, table: FixtureTable, channels: seq<nat>)
    ensures var r := BlackoutFold(buffer, table, channels);
      && (r.1.Ok? <==> forall c | c in channels :: FixtureAt(table, c).Some? && IntensityFits(FixtureAt(table, c).value))
      && (forall j | 0 <= j < 513 :: r.0[j] == buffer[j] || r.0[j] == 0)
      && (forall j | 0 <= j < 513 && (forall c | c in channels :: !DrivesIntensityAt(table, c, j)) :: r.0[j] == buffer[j])
      && (r.1.Ok? ==> forall c | c in channels && Intensity in FixtureAt(table, c).value.profile.channels ::
            r.0[Slot(FixtureAt(table, c).value, Intensity)] == 0)
    decreases |channels|
  {
    if channels != [] {
      var init := channels[..|channels| - 1];
      var last := channels[|channels| - 1];
      assert forall c :: c in channels <==> c in init || c == last;
      BlackoutFoldEffect(buffer, table, init);
      var earlier := BlackoutFold(buffer, table, init);
      if earlier.1.Ok? {
        ZeroIntensityStep(earlier.0, table, last);
      }
    }
  }

  /**
   * `blackout` on a consistent table: it succeeds exactly when every patched Intensity
   * slot fits in the frame; it only ever writes zeros; every byte that is no patched
   * fixture's Intensity slot keeps its value; and on success every patched fixture's
   * Intensity slot is 0.
   */
  lemma BlackoutZeroesIntensity(buffer: Frame, table: FixtureTable)
    requires Consistent(table)
    ensures var r := BlackoutSpec(buffer, table);
      && (r.1.Ok? <==> forall c | 0 <= c < |table| && table[c].Some? :: IntensityFits(table[c].value))
      && (forall j | 0 <= j < 513 :: r.0[j] == buffer[j] || r.0[j] == 0)
      && (forall j | 0 <= j < 513 && (forall c | 0 <= c < |table| :: !DrivesIntensityAt(table, c, j)) :: r.0[j] == buffer[j])
      && (r.1.Ok? ==> forall c | 0 <= c < |table| && table[c].Some? && Intensity in table[c].value.profile.channels ::
            r.0[Slot(table[c].value, Intensity)] == 0)
  {
    var channels := PatchedChannels(table);
    forall c: nat ensures c in channels <==> c < |table| && table[c].Some? {
      PatchedChannelsOccupied(table, c);
    }
    BlackoutFoldEffect(buffer, table, channels);
    forall c | c in channels ensures c < |table| {
    }
  }

  // ---------------------------------------------------------------------------
  // Commands of the output thread

  /** `(dmx_address, offset)` of one entry of a `GetChannels` reply. */
  datatype ChannelAddress = ChannelAddress(dmxAddress: nat, offset: nat)

  /** `UniverseCommand`; each reply sender becomes the corresponding `Reply`. */
  datatype UniverseCommand =
    | SetChannel(channel: nat, value: u8)
    | SetMultiple(changes: seq<(nat, u8)>)
    | PlayCue(cueIdx: nat, cueData: Frame, fadeTimeMs: u32)
    | SetFixture(fixtureChannel: nat, intensity: Option<u8>, color: Option<(u8, u8, u8)>)
    | Blackout
    | GetChannelValue(channel: nat)
    | GetChannels(fixtureChannel: nat)
    | GetDmxState
  {
    /** The commands that carry a reply sender. */
    predicate IsQuery() {
      GetChannelValue? || GetChannels? || GetDmxState?
    }
  }

  /** What a command sends back on its reply channel (`NoReply` for the commands without one). */
  datatype Reply =
    | NoReply
    | ChannelValue(value: u8)
    | ChannelList(channels: Option<map<ChannelType, ChannelAddress>>)
    | DmxState(frame: Frame)

  /** The `GetChannels` answer for a fixture: every kind with `dmx_start + offset` and the offset. */
  function ChannelReport(fixture: PatchedFixture): (r: map<ChannelType, ChannelAddress>)
    ensures r.Keys == fixture.profile.channels.Keys
    ensures forall k | k in r :: r[k].offset == fixture.profile.channels[k] && r[k].dmxAddress + 1 == Slot(fixture, k)
  {
    map k | k in fixture.profile.channels :: ChannelAddress(fixture.dmxStart + fixture.profile.channels[k], fixture.profile.channels[k])
  }

  /** The (kind, value) pairs a `SetFixture` command asks for: Intensity first, then Red, Green, Blue. */
  function FixtureCommandValues(intensity: Option<u8>, color: Option<(u8, u8, u8)>): (r: seq<(ChannelType, u8)>)
    ensures |r| == (if intensity.Some? then 1 else 0) + (if color.Some? then 3 else 0)
    ensures intensity.Some? ==> r[0] == (Intensity, intensity.value)
    ensures color.Some? ==> r[|r| - 3..] == [(Red, color.value.0), (Green, color.value.1), (Blue, color.value.2)]
  {
    (if intensity.Some? then [(Intensity, intensity.value)] else [])
      + (if color.Some? then [(Red, color.value.0), (Green, color.value.1), (Blue, color.value.2)] else [])
  }

  /** `SetMultiple`: every change goes through `set_dmx_address`; a rejected one is reported and skipped. */
  function PokeAll(buffer: Frame, changes: seq<(nat, u8)>): (r: Frame)
    ensures r[0] == buffer[0]
    decreases |changes|
  {
    if changes == [] then buffer
    else
      var last := changes[|changes| - 1];
      Poke(PokeAll(buffer, changes[..|changes| - 1]), last.0, last.1).0
  }

  /** A slot no change names keeps its value. */
  lemma {:induction false} PokeAllUntouched(buffer: Frame, changes: seq<(nat, u8)>, slot: nat)
    requires slot < 513
    requires forall p | 0 <= p < |changes| :: changes[p].0 != slot
    ensures PokeAll(buffer, changes)[slot] == buffer[slot]
    decreases |changes|
  {
    if changes != [] {
      var init := changes[..|changes| - 1];
      assert forall p | 0 <= p < |init| :: init[p] == changes[p];
      PokeAllUntouched(buffer, init, slot);
    }
  }

  /** A data slot holds the last value sent to it, whatever invalid addresses come before or after. */
  lemma {:induction false} PokeAllLastWins(buffer: Frame, changes: seq<(nat, u8)>, slot: nat, p: nat)
    requires 1 <= slot <= 512 && p < |changes| && changes[p].0 == slot
    requires forall q | p < q < |changes| :: changes[q].0 != slot
    ensures PokeAll(buffer, changes)[slot] == changes[p].1
    decreases |changes|
  {
    var init := changes[..|changes| - 1];
    if p < |changes| - 1 {
      assert forall q | 0 <= q < |init| :: init[q] == changes[q];
      PokeAllLastWins(buffer, init, slot, p);
    }
  }

  /**
   * `process_command` on the frame: the new frame and the reply. Errors of the
   * writing commands are only logged, so they leave no trace beyond the writes
   * already made.
   */
  function Step(buffer: Frame, table: FixtureTable, command: UniverseCommand): (r: (Frame, Reply))
    ensures command.IsQuery() ==> r.0 == buffer
    ensures !command.IsQuery() ==> r.1 == NoReply
    ensures !command.PlayCue? ==> r.0[0] == buffer[0]
  {
    match command
    case SetChannel(channel, value) => (Poke(buffer, channel, value).0, NoReply)
    case SetMultiple(changes) => (PokeAll(buffer, changes), NoReply)
    case PlayCue(_, cueData, _) => (cueData, NoReply)
    case SetFixture(channel, intensity, color) =>
      if FixtureAt(table, channel).Some?
      then (WriteFixture(buffer, table, channel, FixtureCommandValues(intensity, color)).0, NoReply)
      else (buffer, NoReply)
    case Blackout => (BlackoutSpec(buffer, table).0, NoReply)
    case GetChannelValue(channel) => (buffer, ChannelValue(if channel < DMX_BUFFER_LENGTH then buffer[channel] else 0))
    case GetChannels(channel) =>
      (buffer, ChannelList(if FixtureAt(table, channel).Some? then Some(ChannelReport(FixtureAt(table, channel).value)) else None))
    case GetDmxState => (buffer, DmxState(buffer))
  }

  /** Processing a queue of commands in order: the final frame and one reply per command. */
  function Run(buffer: Frame, table: FixtureTable, commands: seq<UniverseCommand>): (r: (Frame, seq<Reply>))
    ensures |r.1| == |commands|
    decreases |commands|
  {
    if commands == [] then (buffer, [])
    else
      var earlier := Run(buffer, table, commands[..|commands| - 1]);
      var last := Step(earlier.0, table, commands[|commands| - 1]);
      (last.0, earlier.1 + [last.1])
  }

  /** Each reply is computed on the frame left by exactly the commands before it. */
  lemma {:induction false} RunReplyAt(buffer: Frame, table: FixtureTable, commands: seq<UniverseCommand>, i: nat)
    requires i < |commands|
    ensures Run(buffer, table, commands).1[i] == Step(Run(buffer, table, commands[..i]).0, table, commands[i]).1
    decreases |commands|
  {
    var init := commands[..|commands| - 1];
    if i < |commands| - 1 {
      assert init[..i] == commands[..i];
      RunReplyAt(buffer, table, init, i);
    } else {
      assert init == commands[..i];
    }
  }

  /** A `GetDMXState` or `GetChannelValue` in a queue sees every earlier command and no later one. */
  lemma QueriesSeeEarlierCommands(buffer: Frame, table: FixtureTable, commands: seq<UniverseCommand>, i: nat)
    requires i < |commands|
    ensures var before := Run(buffer, table, commands[..i]).0;
      && (commands[i] == GetDmxState ==> Run(buffer, table, commands).1[i] == DmxState(before))
      && (commands[i].GetChannelValue? ==>
            Run(buffer, table, commands).1[i]
              == ChannelValue(if commands[i].channel <= 512 then before[commands[i].channel] else 0))
  {
    RunReplyAt(buffer, table, commands, i);
  }

  /** Running two queues one after the other is running their concatenation. */
  lemma {:induction false} RunAppend(buffer: Frame, table: FixtureTable, first: seq<UniverseCommand>, second: seq<UniverseCommand>)
    ensures var mid := Run(buffer, table, first);
      Run(buffer, table, first + second) == (Run(mid.0, table, second).0, mid.1 + Run(mid.0, table, second).1)
    decreases |second|
  {
    if second == [] {
      assert first + second == first;
      assert Run(buffer, table, first).1 + [] == Run(buffer, table, first).1;
    } else {
      var init := second[..|second| - 1];
      var whole := first + second;
      assert whole[..|whole| - 1] == first + init;
      assert whole[|whole| - 1] == second[|second| - 1];
      RunAppend(buffer, table, first, init);
      var mid := Run(buffer, table, first);
      var rest := Run(mid.0, table, init);
      assert Run(buffer, table, first + init) == (rest.0, mid.1 + rest.1);
      var step := Step(rest.0, table, second[|second| - 1]);
      assert Run(mid.0, table, second) == (step.0, rest.1 + [step.1]);
      assert Run(buffer, table, whole) == (step.0, (mid.1 + rest.1) + [step.1]);
      assert (mid.1 + rest.1) + [step.1] == mid.1 + (rest.1 + [step.1]);
    }
  }

  /** A queue without `PlayCue` never changes the start code. */
  lemma {:induction false} RunKeepsStartCode(buffer: Frame, table: FixtureTable, commands: seq<UniverseCommand>)
    requires forall i | 0 <= i < |commands| :: !commands[i].PlayCue?
    ensures Run(buffer, table, commands).0[0] == buffer[0]
    decreases |commands|
  {
    if commands != [] {
      var init := commands[..|commands| - 1];
      assert forall i | 0 <= i < |init| :: init[i] == commands[i];
      RunKeepsStartCode(buffer, table, init);
    }
  }

  /** Of two `SetChannel` commands on the same address, the later one decides the frame. */
  lemma LaterSetChannelWins(buffer: Frame, table: FixtureTable, channel: nat, first: u8, second: u8)
    ensures Step(Step(buffer, table, SetChannel(channel, first)).0, table, SetChannel(channel, second)).0
         == Step(buffer, table, SetChannel(channel, second)).0
  {
    var once := Step(buffer, table, SetChannel(channel, second)).0;
    var twice := Step(Step(buffer, table, SetChannel(channel, first)).0, table, SetChannel(channel, second)).0;
    assert forall i | 0 <= i < 513 :: twice[i] == once[i];
  }

  /** `PlayCue` replaces the whole frame with the cue's data, whatever the fade time or the frame before. */
  lemma PlayCueReplacesFrame(buffer: Frame, table: FixtureTable, cueIdx: nat, cueData: Frame, fadeTimeMs: u32)
    ensures Step(buffer, table, PlayCue(cueIdx, cueData, fadeTimeMs)) == Step(buffer, table, PlayCue(cueIdx, cueData, 0))
    ensures Step(buffer, table, PlayCue(cueIdx, cueData, fadeTimeMs)).0 == cueData
  {
  }

  /**
   * Setting a fixture's intensity and then asking for the value at its Intensity slot
   * reads the intensity back; `GetChannels` reports that kind one address lower.
   */
  lemma SetFixtureThenRead(buffer: Frame, table: FixtureTable, channel: nat, level: u8)
    requires FixtureAt(table, channel).Some?
    requires Intensity in FixtureAt(table, channel).value.profile.channels
    requires Slot(FixtureAt(table, channel).value, Intensity) <= 512
    ensures var slot := Slot(FixtureAt(table, channel).value, Intensity);
      var written := Step(buffer, table, SetFixture(channel, Some(level), None)).0;
      && Step(written, table, GetChannelValue(slot)).1 == ChannelValue(level)
      && Step(written, table, GetChannels(channel)).1.channels.value[Intensity].dmxAddress == slot - 1
  {
    assert FixtureCommandValues(Some(level), None) == [(Intensity, level)];
    SingleWriteLandsAtSlot(buffer, table, channel, Intensity, level);
  }

  /** `dmx_thread` handles at most this many commands beyond the first before it sends a frame. */
  const BATCH_LIMIT: nat := 100

  // ---------------------------------------------------------------------------
  // The universe object

  /** Copies a fixture's profile into a `GetChannels` report, one kind at a time. */
  method ChannelInfo(fixture: PatchedFixture) returns (report: map<ChannelType, ChannelAddress>)
    ensures report == ChannelReport(fixture)
  {
    report := map[];
    var pending := fixture.profile.channels.Keys;
    while pending != {}
      invariant pending <= fixture.profile.channels.Keys
      invariant report.Keys == fixture.profile.channels.Keys - pending
      invariant forall k | k in report :: report[k] == ChannelReport(fixture)[k]
      decreases pending
    {
      var kind :| kind in pending;
      var offset := fixture.profile.channels[kind];
      report := report[kind := ChannelAddress(fixture.dmxStart + offset, offset)];
      pending := pending - {kind};
    }
  }

  class Universe {
    const id: u8
    var fixtures: FixtureTable
    const dmxBuffer: array<u8>

    ghost predicate Valid()
      reads this
    {
      dmxBuffer.Length == DMX_BUFFER_LENGTH && Consistent(fixtures)
    }

    /** The frame the universe would send now. */
    function Output(): Frame
      reads this, dmxBuffer
      requires Valid()
    {
      dmxBuffer[..]
    }

    /** `new`: no fixtures, every slot 0. */
    constructor (id: u8)
      ensures Valid() && fresh(dmxBuffer)
      ensures this.id == id && fixtures == []
      ensures Output() == seq(DMX_BUFFER_LENGTH, _ => 0)
    {
      this.id := id;
      fixtures := [];
      dmxBuffer := new u8[DMX_BUFFER_LENGTH](_ => 0);
    }

    /** `from_fixtures`: a fresh universe with each fixture patched in turn. */
    static method FromFixtures(id: u8, patch: seq<PatchedFixture>) returns (u: Universe)
      ensures fresh(u) && fresh(u.dmxBuffer) && u.Valid()
      ensures u.id == id && u.fixtures == PatchAll([], patch)
      ensures u.Output() == seq(DMX_BUFFER_LENGTH, _ => 0)
    {
      u := new Universe(id);
      var i := 0;
      while i < |patch|
        invariant 0 <= i <= |patch|
        invariant fresh(u) && fresh(u.dmxBuffer) && u.Valid() && u.id == id
        invariant u.fixtures == PatchAll([], patch[..i])
        invariant u.Output() == seq(DMX_BUFFER_LENGTH, _ => 0)
      {
        u.AddFixture(patch[i]);
        assert patch[..i + 1][..i] == patch[..i];
        i := i + 1;
      }
      assert patch[..i] == patch;
    }

    /** `add_fixture`. */
    method AddFixture(fixture: PatchedFixture)
      requires Valid()
      modifies this
      ensures Valid() && fixtures == WithFixture(old(fixtures), fixture)
    {
      var channel := fixture.channel;
      if channel >= |fixtures| {
        fixtures := fixtures + seq(channel + 1 - |fixtures|, _ => None);
      }
      fixtures := fixtures[channel := Some(fixture)];
    }

    /** `remove_fixture`: returns what was patched at the channel. */
    method RemoveFixture(channel: nat) returns (removed: Option<PatchedFixture>)
      requires Valid()
      modifies this
      ensures Valid() && fixtures == WithoutFixture(old(fixtures), channel)
      ensures removed == FixtureAt(old(fixtures), channel)
    {
      if channel < |fixtures| {
        removed := fixtures[channel];
        fixtures := fixtures[channel := None];
      } else {
        removed := None;
      }
    }

    /** `set_dmx_address`. */
    method SetDmxAddress(address: nat, value: u8) returns (status: Status)
      requires Valid()
      modifies dmxBuffer
      ensures Valid()
      ensures (Output(), status) == Poke(old(Output()), address, value)
    {
      if address == 0 {
        return Err(StartCodeReserved);
      }
      if address >= DMX_BUFFER_LENGTH {
        return Err(AddressOutOfRange);
      }
      dmxBuffer[address] := value;
      status := Ok(());
    }

    /** `set_fixture_values`: collect the slots first, then write them, stopping at the first error. */
    method SetFixtureValues(channel: nat, values: seq<(ChannelType, u8)>) returns (status: Status)
      requires Valid()
      modifies dmxBuffer
      ensures Valid()
      ensures (Output(), status) == WriteFixture(old(Output()), fixtures, channel, values)
    {
      var found := FixtureAt(fixtures, channel);
      if found.None? {
        return Err(NoFixture(channel));
      }
      var fixture := found.value;
      var updates: seq<(nat, u8)> := [];
      var i := 0;
      while i < |values|
        invariant 0 <= i <= |values|
        invariant updates == FixtureUpdates(fixture, values[..i])
      {
        var (kind, newValue) := values[i];
        if kind in fixture.profile.channels {
          var bufferIndex := fixture.dmxStart + fixture.profile.channels[kind] + 1;
          updates := updates + [(bufferIndex, newValue)];
        }
        assert values[..i + 1][..i] == values[..i];
        i := i + 1;
      }
      assert values[..i] == values;
      TwoPhaseWriteIsDirect(old(Output()), fixture, values);
      var j := 0;
      while j < |updates|
        invariant 0 <= j <= |updates|
        invariant Valid()
        invariant (Output(), Ok(())) == ApplyUpdates(old(Output()), updates[..j])
      {
        assert updates[..j + 1][..j] == updates[..j];
        status := SetDmxAddress(updates[j].0, updates[j].1);
        if status.Err? {
          ApplyUpdatesSticky(old(Output()), updates, j + 1);
          return;
        }
        j := j + 1;
      }
      assert updates[..j] == updates;
      status := Ok(());
    }

    /** `set_intensity`. */
    method SetIntensity(channel: nat, intensity: u8) returns (status: Status)
      requires Valid()
      modifies dmxBuffer
      ensures Valid()
      ensures (Output(), status) == WriteFixture(old(Output()), fixtures, channel, [(Intensity, intensity)])
    {
      status := SetFixtureValues(channel, [(Intensity, intensity)]);
    }

    /** `set_rgb`. */
    method SetRgb(channel: nat, r: u8, g: u8, b: u8) returns (status: Status)
      requires Valid()
      modifies dmxBuffer
      ensures Valid()
      ensures (Output(), status) == WriteFixture(old(Output()), fixtures, channel, [(Red, r), (Green, g), (Blue, b)])
    {
      status := SetFixtureValues(channel, [(Red, r), (Green, g), (Blue, b)]);
    }

    /** `set_dmx_buffer`: replaces the whole frame, start code included. */
    method SetDmxBuffer(newBuffer: Frame)
      requires Valid()
      modifies dmxBuffer
      ensures Valid() && Output() == newBuffer
    {
      forall i | 0 <= i < DMX_BUFFER_LENGTH {
        dmxBuffer[i] := newBuffer[i];
      }
    }

    /** `blackout`: intensity 0 on every patched fixture in table order, stopping at the first error. */
    method Blackout() returns (status: Status)
      requires Valid()
      modifies dmxBuffer
      ensures Valid()
      ensures (Output(), status) == BlackoutSpec(old(Output()), fixtures)
    {
      var channels := PatchedChannels(fixtures);
      var i := 0;
      while i < |channels|
        invariant 0 <= i <= |channels|
        invariant Valid()
        invariant (Output(), Ok(())) == BlackoutFold(old(Output()), fixtures, channels[..i])
      {
        assert channels[..i + 1][..i] == channels[..i];
        status := SetIntensity(channels[i], 0);
        if status.Err? {
          BlackoutFoldSticky(old(Output()), fixtures, channels, i + 1);
          return;
        }
        i := i + 1;
      }
      assert channels[..i] == channels;
      status := Ok(());
    }

    /** `process_command`. */
    method ProcessCommand(command: UniverseCommand) returns (reply: Reply)
      requires Valid()
      modifies dmxBuffer
      ensures Valid()
      ensures (Output(), reply) == Step(old(Output()), fixtures, command)
    {
      reply := NoReply;
      match command
      case SetChannel(channel, value) =>
        var ignored := SetDmxAddress(channel, value);
      case SetMultiple(changes) =>
        var i := 0;
        while i < |changes|
          invariant 0 <= i <= |changes|
          invariant Valid()
          invariant Output() == PokeAll(old(Output()), changes[..i])
        {
          assert changes[..i + 1][..i] == changes[..i];
          var ignored := SetDmxAddress(changes[i].0, changes[i].1);
          i := i + 1;
        }
        assert changes[..i] == changes;
      case PlayCue(_, cueData, fadeTimeMs) =>
        if fadeTimeMs == 0 {
          SetDmxBuffer(cueData);
        } else {
          // no fade engine: the cue is applied at once
          SetDmxBuffer(cueData);
        }
      case SetFixture(channel, intensity, color) =>
        if FixtureAt(fixtures, channel).Some? {
          var ignored := SetFixtureValues(channel, FixtureCommandValues(intensity, color));
        }
      case Blackout =>
        var ignored := Blackout();
      case GetChannelValue(channel) =>
        reply := ChannelValue(if channel < DMX_BUFFER_LENGTH then dmxBuffer[channel] else 0);
      case GetChannels(channel) =>
        var found := FixtureAt(fixtures, channel);
        if found.Some? {
          var report := ChannelInfo(found.value);
          reply := ChannelList(Some(report));
        } else {
          reply := ChannelList(None);
        }
      case GetDmxState =>
        reply := DmxState(dmxBuffer[..]);
    }

    /**
     * One pass of `dmx_thread`'s command loop: commands are taken in order and the
     * pass ends once more than `BATCH_LIMIT` have been handled.
     */
    method DrainCommands(queue: seq<UniverseCommand>) returns (processed: nat, replies: seq<Reply>)
      requires Valid()
      modifies dmxBuffer
      ensures Valid()
      ensures processed == if |queue| <= BATCH_LIMIT + 1 then |queue| else BATCH_LIMIT + 1
      ensures (Output(), replies) == Run(old(Output()), fixtures, queue[..processed])
    {
      processed := 0;
      replies := [];
      while processed < |queue|
        invariant 0 <= processed <= |queue| && processed <= BATCH_LIMIT
        invariant Valid()
        invariant (Output(), replies) == Run(old(Output()), fixtures, queue[..processed])
      {
        assert queue[..processed + 1][..processed] == queue[..processed];
        var reply := ProcessCommand(queue[processed]);
        replies := replies + [reply];
        processed := processed + 1;
        if processed > BATCH_LIMIT {
          break;
        }
      }
    }
  }
}
