# DMX lighting engine core, modelled in Dafny

This project models the sequential core of a small DMX512 lighting controller:

- the **universe**: a 513-byte output frame laid out as in ANSI E1.11 (DMX512-A), with the start code in slot 0 and data in slots 1-512, plus a sparse patch table of fixtures;
- the per-command step of the output thread and the commands it accepts;
- the **cue engine**: recorded frames played with go / back / go-to;
- **channel-kind resolution**, which builds a fixture profile (kind → offset, footprint) from an Open Fixture Library definition;
- the **fixture registry**: a profile cache, patched-fixture construction and fixture search;
- an older copy of the universe with string errors;
- the **console command parser**.

Modules, one per source file:

| file | module | models |
|---|---|---|
| `wrappers.dfy` | `Wrappers` | `Option` and `Result` |
| `ints.dfy` | `Ints` | `u8`/`u16`/`u32`/`u64`, and the truncating `as u8` / `as u32` casts |
| `text.dfy` | `Text` | ASCII lower-casing, `contains`, decimal printing and `str::parse` for unsigned integers, `String` ordering |
| `patch.dfy` | `Patch` | `src/fixture/patch.rs` plus the fields of `src/fixture/ofl.rs` it reads |
| `universe.dfy` | `Universes` | `src/universe/mod.rs` |
| `cue.dfy` | `Cues` | `src/universe/cue.rs` |
| `registry.dfy` | `Registry` | `src/fixture/registry.rs` |
| `fixture_universe.dfy` | `FixtureUniverse` | `src/fixture/mod.rs` |
| `cli.dfy` | `Cli` | the parsers of `src/cli.rs` |

The state-changing code is modelled as classes. `Universes.Universe` keeps the frame in a 513-element `array<u8>` and the patch table in a field. `Cues.CueEngine` keeps the cue list, the position and a ghost `outbox` of every command it sent. `Registry.FixtureRegistry` keeps the profile cache. Each method is proved against a pure function of the old state, and the properties are proved about those functions:

- `Poke` for a single write;
- `WriteFixture`/`WriteValues` for fixture writes;
- `BlackoutSpec` for blackout;
- `Step`/`Run` for the command loop;
- `Recorded`/`RemovedAt` for cue editing;
- `Lookup` for the cache.

The model follows the code as written. Three consequences are worth knowing:

- A fixture write lands at `dmx_start + offset + 1` (`src/universe/mod.rs:80`, `src/fixture/mod.rs:76`). `GetChannels` reports `dmx_start + offset` (`src/universe/mod.rs:318`), one address below the slot that is actually written. See `Universes.SetFixtureThenRead`.
- A fixture write fails not only when no fixture is patched at the channel. It also stops with an error at the first slot past 512, and the writes before it stay applied (`src/universe/mod.rs:91-93`, `Universes.WriteValuesStopsAtFirstError`).
- The footprint is the mode's channel count cast with `as u8` (`src/fixture/patch.rs:199`), so it equals the count only for modes of at most 255 channels. The offsets are cast the same way (`src/fixture/patch.rs:193`), so they are distinct only for modes of at most 256 channels.

## Model

| member | source | states |
|---|---|---|
| Ints.AsU8 | src/fixture/patch.rs:193 | `as u8` keeps values below 256 and otherwise wraps modulo 256 |
| Ints.AsU32 | src/universe/cue.rs:73 | `as u32` keeps values below 2^32 and otherwise wraps modulo 2^32 |
| Text.AsciiLower | src/fixture/registry.rs:125 | lower-casing keeps the length, maps each ASCII upper-case letter to its lower-case letter, leaves every other character alone, and leaves no upper-case letter |
| Text.ContainsIffOccurs | src/fixture/registry.rs:130 | `contains` holds exactly when the pattern occurs as a contiguous block at some index |
| Text.ContainsChar | src/cli.rs:19 | a one-character pattern is contained exactly when the character occurs |
| Text.Decimal | src/universe/cue.rs:81 | a number prints as a non-empty string of decimal digits |
| Text.ParseUnsigned | src/cli.rs:10-15 | succeeds exactly when the text is one or more decimal digits, optionally after a single '+', whose value is at most the maximum; the result is that value (leading zeros allowed) |
| Text.ParseUnsignedExamples | src/cli.rs:10-15 | "+7" and "007" read as 7; "256" overflows a u8; "12a", "" and "+" are rejected |
| Text.ParseDecimal | src/cli.rs:10-15 | parsing the decimal text of any n no larger than the maximum gives back n |
| Text.StrLeTotal | src/fixture/registry.rs:136 | any two strings are ordered one way or the other |
| Text.StrLeAntisymmetric | src/fixture/registry.rs:136 | strings ordered both ways are equal |
| Text.StrLeTransitive | src/fixture/registry.rs:136 | string order is transitive |
| Patch.FromOflCapabilityType | src/fixture/patch.rs:81-98 | every string outside the table maps to `Custom` carrying that exact string (case-sensitive) |
| Patch.CapabilityTypeTable | src/fixture/patch.rs:82-96 | for every string and every named kind, the string maps to the kind exactly when it is one of that kind's listed type names, e.g. ColorIntensity→Intensity, PanContinuous→Pan, ColorPreset→ColorMacros, StrobeSpeed/StrobeDuration→Strobe |
| Patch.FromOflChannelName | src/fixture/patch.rs:101-139 | an unknown name maps to `Custom` carrying the name as given, not lower-cased |
| Patch.NamedKindTable | src/fixture/patch.rs:102-137 | a lower-cased name selects a named kind exactly when it is listed for that kind; no arm yields `Custom` |
| Patch.ChannelNameTable | src/fixture/patch.rs:102-137 | a name maps to a named kind exactly when its lower-cased form is one of that kind's listed names ("warm white" and "warmwhite" both give WarmWhite) |
| Patch.ChannelNameIgnoresCase | src/fixture/patch.rs:102-103 | names equal up to ASCII case resolve to the same named kind |
| Patch.ResolutionPriority | src/fixture/patch.rs:159-191 | a known name decides whatever the capabilities say; a single `capability` makes the list irrelevant; only the list's first entry counts; no capability or an empty list keeps `Custom(name)` |
| Patch.ColorIntensityUsesColor | src/fixture/patch.rs:166-168 | for an unknown name, a ColorIntensity capability with a colour resolves to the colour's name-table kind |
| Patch.FromOflFixture | src/fixture/patch.rs:152-202 | the loop builds the profile "fixture (mode)" with footprint `len as u8` and the kind→offset map of `ProfileChannels` |
| Patch.ProfileOffsetIsLastPosition | src/fixture/patch.rs:155-193 | a defined channel whose kind no later channel shares is in the map at its own position; a repeated kind keeps the later position |
| Patch.ProfileEntryHasPosition | src/fixture/patch.rs:155-193 | every map entry comes from a defined channel of that kind, at the position of the last such channel |
| Patch.ProfileKinds | src/fixture/patch.rs:155-157 | the map has an entry exactly for the kinds that some defined mode channel resolves to; names missing from the fixture add nothing but still occupy a position |
| Patch.OffsetsWithinFootprint | src/fixture/patch.rs:197-201 | for modes of at most 255 channels the footprint is the channel count and every offset is below it |
| Patch.OffsetsDistinct | src/fixture/patch.rs:193 | for modes of at most 256 channels distinct kinds have distinct offsets |
| Patch.EtcSourceFourConventional | src/fixture/patch.rs:142-148 | footprint 1, exactly one entry, Intensity at offset 0 |
| Universes.FixtureAt | src/universe/mod.rs:61-63 | `get_fixture` finds something exactly when the channel is inside the table and that slot is occupied |
| Universes.WithFixture | src/universe/mod.rs:40-48 | the fixture sits at its channel; the length becomes max(old length, channel + 1); new gap slots are empty; no other entry changes; table consistency is kept |
| Universes.WithoutFixture | src/universe/mod.rs:52-58 | the slot becomes empty; nothing else changes; the length never shrinks |
| Universes.LookupAfterPatch | src/universe/mod.rs:40-63 | a lookup after patching or unpatching sees exactly that change |
| Universes.PatchAll | src/universe/mod.rs:30-36 | patching a list of fixtures keeps the table consistent |
| Universes.Poke | src/universe/mod.rs:129-139 | succeeds exactly for addresses 1-512, writing only that byte; address 0 gives the start-code error and 513 or more the range error, both leaving the frame unchanged; slot 0 is never written |
| Universes.ApplyUpdatesSticky | src/universe/mod.rs:91-93 | once a write has failed, the remaining updates change nothing |
| Universes.TwoPhaseWriteIsDirect | src/universe/mod.rs:76-95 | collecting the slots first and then writing them is the same as writing pair by pair |
| Universes.WriteValuesStatus | src/universe/mod.rs:76-95 | a fixture write succeeds exactly when every supported kind's slot is at most 512; otherwise the error is the range error |
| Universes.WriteValuesUntouched | src/universe/mod.rs:76-84 | a slot that no supported pair targets keeps its value, whether the write succeeds or not |
| Universes.WriteValuesLastWins | src/universe/mod.rs:76-95 | on success, each slot holds the value of the last supported pair that targets it (a repeated kind ends with its last value) |
| Universes.WriteValuesStopsAtFirstError | src/universe/mod.rs:91-93 | at the first supported pair whose slot is past 512, the write fails with every earlier write applied and no later one |
| Universes.WriteFixture | src/universe/mod.rs:71-89 | no fixture at the channel gives the no-fixture error with the frame unchanged; the start code is never touched |
| Universes.SingleWriteLandsAtSlot | src/universe/mod.rs:80 | a single supported kind whose slot fits is written at `dmx_start + offset + 1` and nowhere else |
| Universes.PatchedChannelsOccupied | src/universe/mod.rs:120 | in a consistent table, blackout visits exactly the occupied channels |
| Universes.BlackoutFoldSticky | src/universe/mod.rs:121-123 | once a fixture's intensity write has failed, blackout stops |
| Universes.ZeroIntensityStep | src/universe/mod.rs:99-101 | `set_intensity(c, 0)` succeeds exactly when a fixture is patched at c and its Intensity slot (if any) fits; it only writes zero, and only at that slot |
| Universes.BlackoutFoldEffect | src/universe/mod.rs:119-126 | over any channel list: success exactly when every channel has a fixture whose Intensity slot fits; only zeros are written; bytes no listed fixture drives as Intensity are untouched; on success every listed Intensity slot is 0 |
| Universes.BlackoutZeroesIntensity | src/universe/mod.rs:119-126 | on a consistent table, blackout succeeds exactly when every patched Intensity slot fits; it leaves fixtures without Intensity and every other byte untouched; on success every patched fixture's Intensity slot is 0 |
| Universes.ChannelReport | src/universe/mod.rs:310-329 | the `GetChannels` answer lists every kind of the profile with its offset and the address `dmx_start + offset`, one below the slot that fixture writes use |
| Universes.FixtureCommandValues | src/universe/mod.rs:285-296 | `SetFixture` asks for Intensity first (when given), then Red, Green, Blue (when given) |
| Universes.PokeAllUntouched | src/universe/mod.rs:257-263 | `SetMultiple` leaves every slot that no change names as it was |
| Universes.PokeAllLastWins | src/universe/mod.rs:257-263 | `SetMultiple` leaves each data slot holding its last value sent; invalid addresses before or after do not abort it |
| Universes.Step | src/universe/mod.rs:250-334 | queries never change the frame; the other commands reply nothing; only `PlayCue` can change the start code |
| Universes.Run | src/universe/mod.rs:217-226 | a queue of commands yields one reply per command |
| Universes.RunReplyAt | src/universe/mod.rs:217-226 | each reply is computed on the frame left by exactly the commands before it |
| Universes.QueriesSeeEarlierCommands | src/universe/mod.rs:306-332 | a `GetDMXState` returns the whole frame left by the earlier commands; a `GetChannelValue` returns that frame's byte for channels up to 512 (the start code at 0) and 0 beyond |
| Universes.RunAppend | src/universe/mod.rs:217-226 | running two queues one after the other is running their concatenation |
| Universes.RunKeepsStartCode | src/universe/mod.rs:114-139 | a queue without `PlayCue` never changes the start code |
| Universes.LaterSetChannelWins | src/universe/mod.rs:252-256 | of two `SetChannel` commands on one address, the later decides the frame |
| Universes.PlayCueReplacesFrame | src/universe/mod.rs:264-279 | `PlayCue` replaces the whole frame, slot 0 included, whatever the fade time |
| Universes.SetFixtureThenRead | src/universe/mod.rs:80 | after setting a fixture's intensity, `GetChannelValue` at its Intensity slot reads the level back, while `GetChannels` reports the address one lower |
| Universes.ChannelInfo | src/universe/mod.rs:314-321 | the loop over the profile builds exactly the `GetChannels` report |
| Universes.Universe.constructor | src/universe/mod.rs:22-28 | an empty table and an all-zero frame |
| Universes.Universe.FromFixtures | src/universe/mod.rs:30-36 | a fresh universe with each fixture patched in turn and an all-zero frame |
| Universes.Universe.AddFixture | src/universe/mod.rs:40-48 | the table becomes `WithFixture` of the old table |
| Universes.Universe.RemoveFixture | src/universe/mod.rs:52-58 | returns the old entry (none past the end) and the table becomes `WithoutFixture` of the old table |
| Universes.Universe.SetDmxAddress | src/universe/mod.rs:129-139 | the new frame and the status are those of `Poke` on the old frame |
| Universes.Universe.SetFixtureValues | src/universe/mod.rs:71-96 | the two loops leave the frame and status of `WriteFixture` on the old frame |
| Universes.Universe.SetIntensity | src/universe/mod.rs:99-101 | writes Intensity only, as `WriteFixture` |
| Universes.Universe.SetRgb | src/universe/mod.rs:103-112 | writes Red, Green, Blue in that order, as `WriteFixture` |
| Universes.Universe.SetDmxBuffer | src/universe/mod.rs:114-117 | the frame becomes the given 513 bytes, start code included |
| Universes.Universe.Blackout | src/universe/mod.rs:119-126 | the loop leaves the frame and status of `BlackoutSpec` on the old frame |
| Universes.Universe.ProcessCommand | src/universe/mod.rs:250-334 | the new frame and the reply are `Step` of the old frame |
| Universes.Universe.DrainCommands | src/universe/mod.rs:216-226 | one pass handles min(queue length, 101) commands, because the check is `> 100`, and leaves the frame and replies of `Run` on that prefix |
| Cues.IndexOfName | src/universe/cue.rs:31 | `position` finds the first cue with the name, or reports that none has it |
| Cues.IndexOfAppended | src/universe/cue.rs:35-39 | a name absent from the list is found at the end after a cue of that name is appended |
| Cues.PlayCommand | src/universe/cue.rs:69-74 | the play command carries the cue's index and frame, and its fade time in milliseconds when that fits in `u32` |
| Cues.Recorded | src/universe/cue.rs:31-40 | an existing name gets the new time and frame at its index, with length, order and other cues unchanged; otherwise the cue is appended |
| Cues.RecordedKeepsNamesUnique | src/universe/cue.rs:31-39 | recording keeps names unique, and the recorded cue is the one found under its name |
| Cues.RecordTwiceKeepsLatest | src/universe/cue.rs:31-40 | recording one name twice leaves what the second recording alone leaves |
| Cues.RemovedAt | src/universe/cue.rs:60 | removing an index drops that cue and keeps the others in order |
| Cues.RemovingNamedCue | src/universe/cue.rs:45-54 | with unique names, deleting by name removes exactly that cue; every other cue stays |
| Cues.DeleteBeforePositionSkipsCue | src/universe/cue.rs:45-63 | the position is not repaired, so after deleting a cue at or before it, `go` plays the cue that used to be two ahead |
| Cues.CueEngine.constructor | src/universe/cue.rs:12-18 | no cues, no position, nothing sent |
| Cues.CueEngine.RecordCue | src/universe/cue.rs:20-43 | a failed send or a timed-out reply is an error with the cues unchanged; otherwise the cues become `Recorded`; the state query is sent unless the send failed |
| Cues.CueEngine.DeleteCue | src/universe/cue.rs:45-54 | an absent name is an error with the cues unchanged; otherwise the first match is removed; the position is never touched |
| Cues.CueEngine.DeleteCueIdx | src/universe/cue.rs:56-63 | only an index past the length is rejected; a smaller index removes that cue |
| Cues.CueEngine.Go | src/universe/cue.rs:65-83 | targets current + 1, or 0 with no position; a target in the list is sent and becomes the position; otherwise "No cue n available" with nothing sent and the position unchanged |
| Cues.CueEngine.Back | src/universe/cue.rs:85-111 | errors for no position, position 0 and a missing previous cue; otherwise it sends the previous cue and moves there |
| Cues.CueEngine.GoToCueIdx | src/universe/cue.rs:124-142 | targets `number - 1`, saturating, so 0 and 1 both reach the first cue; a missing target is "Cue n not found" |
| Cues.CueEngine.GoToCue | src/universe/cue.rs:113-122 | hands the 0-based position p to the 1-based go-to, so it lands on max(p - 1, 0) |
| Registry.CacheKeysCollide | src/fixture/registry.rs:60 | two different (manufacturer, fixture) pairs can share a cache key when names contain '/' |
| Registry.FindMode | src/fixture/registry.rs:71-80 | finds the first mode with exactly that name, or reports that none has it |
| Registry.ModesForFixture | src/fixture/registry.rs:44-51 | a loader failure is an error; otherwise the mode names in declaration order |
| Registry.ListedModesResolve | src/fixture/registry.rs:44-80 | a profile can be requested for exactly the listed mode names |
| Registry.ProfileFor | src/fixture/registry.rs:68-83 | a loader failure is `LoadFailed`; a loaded fixture succeeds exactly when some mode has that name, and the profile is built from the first such mode; otherwise the error is `ModeNotFound` with the mode, manufacturer and fixture |
| Registry.Lookup | src/fixture/registry.rs:54-89 | a hit returns the cached profile with the cache unchanged; a miss computes `ProfileFor`; a failure leaves the cache unchanged; a success is inserted under the key |
| Registry.LookupIdempotent | src/fixture/registry.rs:54-89 | asking twice gives the first answer, and the second request changes nothing |
| Registry.PatchedFrom | src/fixture/registry.rs:103-109 | the patched fixture has id "manufacturer/fixture" and copies channel, start address and label |
| Registry.PairLeTotal | src/fixture/registry.rs:136 | any two (manufacturer, fixture) pairs are ordered one way or the other |
| Registry.PairLeAntisymmetric | src/fixture/registry.rs:136 | pairs ordered both ways are equal |
| Registry.PairLeTransitive | src/fixture/registry.rs:136 | pair order is transitive |
| Registry.InsertSorted | src/fixture/registry.rs:136 | inserting into a sorted list keeps it sorted |
| Registry.SortPairs | src/fixture/registry.rs:136 | `sort` returns the same pairs, ascending |
| Registry.SortedUnique | src/fixture/registry.rs:136 | two sorted lists of the same pairs are equal |
| Registry.GroupMatchesMembers | src/fixture/registry.rs:129-133 | a manufacturer contributes exactly its fixtures whose lower-cased name contains the lower-cased term |
| Registry.MatchesMembers | src/fixture/registry.rs:128-134 | a pair is found exactly when some discovered group lists it and its lower-cased name contains the lower-cased term |
| Registry.MatchesAppend | src/fixture/registry.rs:128-134 | searching two lists of groups is searching each and concatenating |
| Registry.MatchesIgnoreGroupOrder | src/fixture/registry.rs:128-134 | visiting the groups in another order finds the same pairs |
| Registry.SearchIgnoresDiscoveryOrder | src/fixture/registry.rs:120-138 | the search result does not depend on the order the groups are discovered in |
| Registry.FixtureRegistry.constructor | src/fixture/registry.rs:20-28 | an empty cache |
| Registry.FixtureRegistry.GetFixtureProfile | src/fixture/registry.rs:54-89 | the answer and the new cache are `Lookup` on the old cache |
| Registry.FixtureRegistry.CreatePatchedFixture | src/fixture/registry.rs:92-110 | profile errors are passed on; otherwise the fixture is `PatchedFrom` on the profile; the cache changes as in `Lookup` |
| Registry.FixtureRegistry.SearchFixtures | src/fixture/registry.rs:120-138 | a discovery error is passed on; otherwise the result is sorted and holds exactly the matching pairs |
| FixtureUniverse.AsText | src/fixture/mod.rs:83 | an error becomes its text |
| FixtureUniverse.NoFixturePrefix | src/fixture/mod.rs:83 | the missing-fixture text is a fixed prefix followed by the channel in decimal |
| FixtureUniverse.MessageDeterminesError | src/fixture/mod.rs:83-128 | different errors have different texts, so string errors lose nothing |
| FixtureUniverse.Universe.constructor | src/fixture/mod.rs:17-23 | an empty table and an all-zero frame |
| FixtureUniverse.Universe.FromFixtures | src/fixture/mod.rs:25-31 | each fixture patched in turn |
| FixtureUniverse.Universe.AddFixture | src/fixture/mod.rs:35-43 | the table becomes `WithFixture` of the old table |
| FixtureUniverse.Universe.RemoveFixture | src/fixture/mod.rs:47-53 | returns the old entry and the table becomes `WithoutFixture` |
| FixtureUniverse.Universe.SetDmxAddress | src/fixture/mod.rs:123-133 | the frame and the error text of `Poke` |
| FixtureUniverse.Universe.SetFixtureValues | src/fixture/mod.rs:66-93 | the frame and the error text of `WriteFixture`: stops at the first failing write and keeps the earlier ones |
| FixtureUniverse.Universe.SetIntensity | src/fixture/mod.rs:96-98 | writes Intensity only |
| FixtureUniverse.Universe.SetRgb | src/fixture/mod.rs:100-109 | writes Red, Green, Blue in that order |
| FixtureUniverse.Universe.Blackout | src/fixture/mod.rs:111-120 | the frame and the error text of `BlackoutSpec` |
| Cli.ParseArg | src/cli.rs:10-15 | a missing token gives "Missing X argument", a failed parse gives "X must be a valid number", and a success is the parsed number within range |
| Cli.FullContainsF | src/cli.rs:19 | a string containing "full" contains 'f', so the second test never decides anything |
| Cli.DigitsHaveNoF | src/cli.rs:19 | a string of digits contains no 'f' |
| Cli.ParseIntensity | src/cli.rs:18-26 | any 'f' gives 255; otherwise it succeeds exactly when the token parses as a u8, and fails with the fixed text |
| Cli.IntensityRoundTrip | src/cli.rs:18-26 | a level printed in decimal parses back to itself |
| Cli.IntensityToken | src/cli.rs:60-63 | a missing token gives the given error; otherwise `parse_intensity` of it |
| Cli.ParseChannelCommand | src/cli.rs:55-91 | a bad channel token gives its error; then a token 2 containing "@" gives the intensity form from token 3 (even if it also contains "rgb"); otherwise one containing "rgb" gives the colour form from tokens 3-5, reporting the first bad component; anything else gives the usage text |
| Cli.ParseAddressCommand | src/cli.rs:92-101 | an address command results exactly when token 1 parses as an address and token 3 as a value, and carries both; otherwise the address error, or failing that the value error |
| Cli.KeywordLetters | src/cli.rs:92-104 | 'a' occurs in "blackout" but not in "help" |
| Cli.ParseCommand | src/cli.rs:49-107 | no tokens gives "Empty command"; a first token starting with "c" goes to the channel arm; else one containing 'a' goes to the address arm; else "help" gives Help and anything else "Unknown command: " and the token; Blackout is never produced |
| Cli.BlackoutIsAnAddressCommand | src/cli.rs:92-103 | "blackout" is read as an address command and yields "Missing address argument" |
| Cli.AddressIgnoresThirdToken | src/cli.rs:92-101 | the address form never looks at token 2 |
| Cli.AddressErrorWins | src/cli.rs:97-100 | a bad address is reported even when the value is bad too |
| Cli.ChannelIntensityRoundTrip | src/cli.rs:55-72 | "c n @ v" in decimal parses back to the channel-intensity command |
| Cli.ChannelRgbRoundTrip | src/cli.rs:73-86 | "c n rgb r g b" in decimal parses back to the channel-RGB command |
| Cli.AddressRoundTrip | src/cli.rs:92-101 | "a n @ v" in decimal parses back to the address command |
| Cli.AtWinsOverRgb | src/cli.rs:61-72 | a token 2 of "@rgb" selects the intensity form |

## Left out

- `dmx_thread`'s threads, mpsc channels, `Instant`/`sleep` timing and shutdown polling. Only one pass of its command loop is modelled (`DrainCommands`), and processing is the fold `Run`.
- Reply channels: each query's answer is the returned `Reply`. The `GetChannels` answer is a map from kind to (address, offset). The `Vec` order, which follows `HashMap` iteration, and the `{:?}` kind names are not modelled.
- Sending frames to hardware: `send_buffer` in both universe copies and the C DMX driver it calls. Frames are only computed.
- `eprintln!`/`println!` diagnostics, such as skipped kinds and logged command errors. They change no state.
- `get_fixture_mut`: it hands out a mutable reference and has no behaviour of its own.
- `Universes.Universe.Valid`: requires the patch table to be consistent (each fixture at the index its `channel` names). `add_fixture` and `remove_fixture` keep that, but the field is public in the source and other code could break it. Blackout's summary lemma `BlackoutZeroesIntensity` assumes it; `BlackoutFoldEffect` does not.
- Fade interpolation: the code applies every cue at once whatever its fade time, and so does the model.
- `Cues.CueEngine.RecordCue`: the frame the output thread returns is a parameter. A failed send and a reply timeout are the two error outcomes.
- `Cues.CueEngine.Go` / `Back` / `GoToCueIdx` / `GoToCue`: whether `command_tx.send` succeeds is a parameter (`receiverAlive`).
- `Cues.CueEngine.DeleteCueIdx`: an index equal to the length passes the `>` check and then panics in `Vec::remove`. The model makes that index a precondition rather than modelling the panic.
- `Cues.PlayCommand`: the fade time is `Duration::as_millis() as u32`, modelled as the stored milliseconds modulo 2^32.
- The fixture loader's file-system reads and JSON parsing. The loader is the map `library`, and a missing pair stands for any loading failure, with `LoadFailed` in place of the loader's message. The missing-mode error is the value `ModeNotFound` carrying the mode, manufacturer and fixture names; the text `src/fixture/registry.rs:76-79` builds from them is not modelled. `discover_all_fixtures` is the `discovered` parameter of `SearchFixtures`.
- The loader's own cache of parsed fixtures, `get_manufacturers`, `get_fixtures_for_manufacturer`, `get_fixture_info` and `get_cached_profiles`. These are pass-throughs to the loader or accessors.
- `Arc` sharing of profiles: a profile is a value.
- The OFL data declarations beyond the fields the resolver reads.
- Unicode `to_lowercase`: only ASCII letters are lower-cased.
- `usize` is unbounded (`nat`), except that parsed `usize` tokens are limited to 2^64 - 1. `dmx_start + offset + 1` cannot overflow in the source either.
- `run_cli`, `run_cli_threaded` and `execute_command`: stdin/stdout loops and `Mutex` locking around the parser.
- The GUI handlers and `main` wiring.
