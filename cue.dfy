/**
 * The cue engine of src/universe/cue.rs: an ordered list of recorded frames and an
 * optional current position, moved by go / back / go-to. Each move sends a
 * `PlayCue` command to the output thread; the ghost `outbox` records what was sent,
 * and whether a send succeeds (the receiver still exists) is a parameter.
 */
module Cues {
  import opened Wrappers
  import opened Ints
  import opened Text
  import Universes

  /** `Cue`: a name, a fade-in time in milliseconds, and a whole frame. */
  datatype Cue = Cue(name: string, timeInMs: u64, channels: Universes.Frame)

  /** How the `GetDMXState` round trip of `record_cue` can fail. */
  datatype LinkError =
    | SendFailed    // the output thread's receiver is gone: nothing was sent
    | ReplyTimeout  // the query was sent but no frame came back within 100 ms

  datatype CueError =
    | StateQueryFailed
    | StateReplyTimeout
    | NoSuchCue(name: string)
    | CueOutOfBounds(index: nat)
    | CueSendFailed
    | NoCueAvailable(number: nat)
    | PreviousCueNotFound
    | AlreadyAtFirstCue
    | NoCurrentCue
    | CueNotFound(number: nat)

  /** The text each error carries. */
  function Message(e: CueError): string {
    match e
    case StateQueryFailed => "Failed to get DMX state"
    case StateReplyTimeout => "Timeout reciving DMX state"
    case NoSuchCue(name) => "There is no cue \"" + name + "\""
    case CueOutOfBounds(index) => "Cue " + Decimal(index) + " out of bounds"
    case CueSendFailed => "Failed to send cue command"
    case NoCueAvailable(number) => "No cue " + Decimal(number) + " available"
    case PreviousCueNotFound => "Previous cue not found"
    case AlreadyAtFirstCue => "Already at first cue"
    case NoCurrentCue => "No current cue"
    case CueNotFound(number) => "Cue " + Decimal(number) + " not found"
  }

  /** `cues.iter().position(|cue| cue.name == name)`: the first cue with that name. */
  function IndexOfName(cues: seq<Cue>, name: string): (r: Option<nat>)
    ensures r.Some? ==> r.value < |cues| && cues[r.value].name == name
    ensures r.Some? ==> forall i | 0 <= i < r.value :: cues[i].name != name
    ensures r.None? ==> forall i | 0 <= i < |cues| :: cues[i].name != name
  {
    if cues == [] then None
    else if cues[0].name == name then Some(0)
    else match IndexOfName(cues[1..], name)
      case None => None
      case Some(i) => Some(i + 1)
  }

  /** A name absent from the list is found at the end once a cue of that name is appended. */
  lemma {:induction false} IndexOfAppended(cues: seq<Cue>, cue: Cue)
    requires IndexOfName(cues, cue.name).None?
    ensures IndexOfName(cues + [cue], cue.name) == Some(|cues|)
    decreases |cues|
  {
    if cues != [] {
      assert (cues + [cue])[1..] == cues[1..] + [cue];
      IndexOfAppended(cues[1..], cue);
    }
  }

  /** No two cues share a name. */
  predicate UniqueNames(cues: seq<Cue>) {
    forall i, j | 0 <= i < j < |cues| :: cues[i].name != cues[j].name
  }

  /** The command that plays cue `index`: its frame, its fade time cut to `u32` milliseconds. */
  function PlayCommand(index: nat, cue: Cue): (c: Universes.UniverseCommand)
    ensures c.PlayCue? && c.cueIdx == index && c.cueData == cue.channels
    ensures cue.timeInMs < 0x1_0000_0000 ==> c.fadeTimeMs == cue.timeInMs
  {
    Universes.PlayCue(index, cue.channels, AsU32(cue.timeInMs))
  }

  /**
   * The cue list after recording `frame` under `name`: the first cue of that name gets
   * the new time and frame in place, otherwise a new cue goes at the end.
   */
  function Recorded(cues: seq<Cue>, name: string, timeInMs: u64, frame: Universes.Frame): (r: seq<Cue>)
    ensures IndexOfName(cues, name).Some? ==> |r| == |cues|
    ensures IndexOfName(cues, name).None? ==> r == cues + [Cue(name, timeInMs, frame)]
    ensures IndexOfName(cues, name).Some? ==>
      var i := IndexOfName(cues, name).value;
      r[i] == Cue(name, timeInMs, frame) && forall j | 0 <= j < |cues| && j != i :: r[j] == cues[j]
  {
    match IndexOfName(cues, name)
    case Some(i) => cues[i := cues[i].(timeInMs := timeInMs, channels := frame)]
    case None => cues + [Cue(name, timeInMs, frame)]
  }

  /** Recording keeps the names unique, and the recorded cue is the one found under its name. */
  lemma RecordedKeepsNamesUnique(cues: seq<Cue>, name: string, timeInMs: u64, frame: Universes.Frame)
    requires UniqueNames(cues)
    ensures UniqueNames(Recorded(cues, name, timeInMs, frame))
    ensures var r := Recorded(cues, name, timeInMs, frame);
      IndexOfName(r, name).Some? && r[IndexOfName(r, name).value] == Cue(name, timeInMs, frame)
  {
    var r := Recorded(cues, name, timeInMs, frame);
    match IndexOfName(cues, name)
    case Some(i) =>
      assert forall j | 0 <= j < |r| :: r[j].name == cues[j].name;
    case None =>
      IndexOfAppended(cues, Cue(name, timeInMs, frame));
  }

  /** Recording the same name twice leaves what the second recording alone would leave. */
  lemma RecordTwiceKeepsLatest(cues: seq<Cue>, name: string, t1: u64, f1: Universes.Frame, t2: u64, f2: Universes.Frame)
    ensures Recorded(Recorded(cues, name, t1, f1), name, t2, f2) == Recorded(cues, name, t2, f2)
  {
    var once := Recorded(cues, name, t1, f1);
    match IndexOfName(cues, name)
    case Some(i) =>
      assert forall j | 0 <= j < |once| :: once[j].name == cues[j].name;
      assert IndexOfName(once, name) == Some(i) by {
        var k := IndexOfName(once, name).value;
        assert once[k].name == cues[k].name;
      }
    case None =>
      IndexOfAppended(cues, Cue(name, t1, f1));
  }

  /** `Vec::remove`: the cue at `index` goes, the others keep their order. */
  function RemovedAt(cues: seq<Cue>, index: nat): (r: seq<Cue>)
    requires index < |cues|
    ensures |r| == |cues| - 1
    ensures forall j | 0 <= j < index :: r[j] == cues[j]
    ensures forall j | index <= j < |r| :: r[j] == cues[j + 1]
  {
    cues[..index] + cues[index + 1..]
  }

  /** Deleting by name removes exactly that cue: the names left are the others, still unique. */
  lemma RemovingNamedCue(cues: seq<Cue>, name: string)
    requires UniqueNames(cues) && IndexOfName(cues, name).Some?
    ensures var r := RemovedAt(cues, IndexOfName(cues, name).value);
      UniqueNames(r) && IndexOfName(r, name).None?
      && forall c | c in cues && c.name != name :: c in r
  {
    var i := IndexOfName(cues, name).value;
    var r := RemovedAt(cues, i);
    forall c | c in cues && c.name != name ensures c in r {
      var k :| 0 <= k < |cues| && cues[k] == c;
      if k < i {
        assert r[k] == c;
      } else {
        assert r[k - 1] == c;
      }
    }
  }

  /** `go`'s target: one past the current cue, or the first cue when there is none. */
  function NextIndex(current: Option<nat>): nat {
    if current.None? then 0 else current.value + 1
  }

  /**
   * `delete_cue` leaves the position alone: after deleting a cue at or before the
   * current one, the next `go` plays the cue that used to come two after it.
   */
  lemma DeleteBeforePositionSkipsCue(cues: seq<Cue>, index: nat, current: nat)
    requires index <= current && current + 2 < |cues|
    ensures RemovedAt(cues, index)[NextIndex(Some(current))] == cues[current + 2]
  {
  }

  class CueEngine {
    var cues: seq<Cue>
    var currentCue: Option<nat>
    /** Every command sent on `command_tx`, oldest first. */
    ghost var outbox: seq<Universes.UniverseCommand>

    /** `new`: no cues, no position, nothing sent. */
    constructor ()
      ensures cues == [] && currentCue == None && outbox == []
    {
      cues := [];
      currentCue := None;
      outbox := [];
    }

    /**
     * `record_cue`: asks the output thread for its frame (`query` is how that round
     * trip ends) and stores it under `name`.
     */
    method RecordCue(name: string, timeInMs: u64, query: Result<Universes.Frame, LinkError>) returns (status: Result<(), CueError>)
      modifies this
      ensures currentCue == old(currentCue)
      ensures outbox == if query == Err(SendFailed) then old(outbox) else old(outbox) + [Universes.GetDmxState]
      ensures query == Err(SendFailed) ==> status == Err(StateQueryFailed) && cues == old(cues)
      ensures query == Err(ReplyTimeout) ==> status == Err(StateReplyTimeout) && cues == old(cues)
      ensures query.Ok? ==> status.Ok? && cues == Recorded(old(cues), name, timeInMs, query.value)
    {
      if query == Err(SendFailed) {
        return Err(StateQueryFailed);
      }
      outbox := outbox + [Universes.GetDmxState];
      if query.Err? {
        return Err(StateReplyTimeout);
      }
      var state := query.value;
      var found := IndexOfName(cues, name);
      if found.Some? {
        var i := found.value;
        cues := cues[i := cues[i].(timeInMs := timeInMs, channels := state)];
      } else {
        cues := cues + [Cue(name, timeInMs, state)];
      }
      status := Ok(());
    }

    /** `delete_cue`: removes the first cue with that name; the position is left as it was. */
    method DeleteCue(name: string) returns (status: Result<(), CueError>)
      modifies this
      ensures currentCue == old(currentCue) && outbox == old(outbox)
      ensures IndexOfName(old(cues), name).None? ==> status == Err(NoSuchCue(name)) && cues == old(cues)
      ensures IndexOfName(old(cues), name).Some? ==>
        status.Ok? && cues == RemovedAt(old(cues), IndexOfName(old(cues), name).value)
    {
      var found := IndexOfName(cues, name);
      if found.None? {
        return Err(NoSuchCue(name));
      }
      status := DeleteCueIdx(found.value);
    }

    /**
     * `delete_cue_idx`: the bound check rejects only indices past the length; the
     * index equal to the length would make `Vec::remove` panic, so callers must avoid it.
     */
    method DeleteCueIdx(index: nat) returns (status: Result<(), CueError>)
      requires index != |cues|
      modifies this
      ensures currentCue == old(currentCue) && outbox == old(outbox)
      ensures index > |old(cues)| ==> status == Err(CueOutOfBounds(index)) && cues == old(cues)
      ensures index < |old(cues)| ==> status.Ok? && cues == RemovedAt(old(cues), index)
    {
      if index > |cues| {
        return Err(CueOutOfBounds(index));
      }
      cues := cues[..index] + cues[index + 1..];
      status := Ok(());
    }

    /** Sends `PlayCue` for cue `index` and moves there, or fails leaving everything as it was. */
    method PlayAt(index: nat, receiverAlive: bool) returns (status: Result<(), CueError>)
      requires index < |cues|
      modifies this
      ensures cues == old(cues)
      ensures receiverAlive ==>
        status.Ok? && currentCue == Some(index) && outbox == old(outbox) + [PlayCommand(index, cues[index])]
      ensures !receiverAlive ==>
        status == Err(CueSendFailed) && currentCue == old(currentCue) && outbox == old(outbox)
    {
      if !receiverAlive {
        return Err(CueSendFailed);
      }
      var cue := cues[index];
      outbox := outbox + [Universes.PlayCue(index, cue.channels, AsU32(cue.timeInMs))];
      currentCue := Some(index);
      status := Ok(());
    }

    /** `go`: plays the cue after the current one (the first cue when there is no position). */
    method Go(receiverAlive: bool) returns (status: Result<(), CueError>)
      modifies this
      ensures cues == old(cues)
      ensures var next := NextIndex(old(currentCue));
        if next < |cues| && receiverAlive then
          status.Ok? && currentCue == Some(next) && outbox == old(outbox) + [PlayCommand(next, cues[next])]
        else
          currentCue == old(currentCue) && outbox == old(outbox)
          && status == Err(if next < |cues| then CueSendFailed else NoCueAvailable(next + 1))
    {
      var next := if currentCue.None? then 0 else currentCue.value + 1;
      if next < |cues| {
        status := PlayAt(next, receiverAlive);
      } else {
        status := Err(NoCueAvailable(next + 1));
      }
    }

    /** `back`: plays the cue before the current one. */
    method Back(receiverAlive: bool) returns (status: Result<(), CueError>)
      modifies this
      ensures cues == old(cues)
      ensures old(currentCue).None? ==> status == Err(NoCurrentCue)
      ensures old(currentCue) == Some(0) ==> status == Err(AlreadyAtFirstCue)
      ensures old(currentCue).Some? && old(currentCue).value > |cues| ==> status == Err(PreviousCueNotFound)
      ensures old(currentCue).Some? && 0 < old(currentCue).value <= |cues| && !receiverAlive ==> status == Err(CueSendFailed)
      ensures status.Err? ==> currentCue == old(currentCue) && outbox == old(outbox)
      ensures status.Ok? <==> old(currentCue).Some? && 0 < old(currentCue).value <= |cues| && receiverAlive
      ensures status.Ok? ==>
        var previous := old(currentCue).value - 1;
        currentCue == Some(previous) && outbox == old(outbox) + [PlayCommand(previous, cues[previous])]
    {
      if currentCue.None? {
        return Err(NoCurrentCue);
      }
      var current := currentCue.value;
      if current == 0 {
        return Err(AlreadyAtFirstCue);
      }
      var previous := current - 1;
      if previous >= |cues| {
        return Err(PreviousCueNotFound);
      }
      status := PlayAt(previous, receiverAlive);
    }

    /** `go_to_cue_idx`: `number` counts from 1, and 0 is treated like 1 (`saturating_sub`). */
    method GoToCueIdx(number: nat, receiverAlive: bool) returns (status: Result<(), CueError>)
      modifies this
      ensures cues == old(cues)
      ensures var target := if number == 0 then 0 else number - 1;
        if target < |cues| && receiverAlive then
          status.Ok? && currentCue == Some(target) && outbox == old(outbox) + [PlayCommand(target, cues[target])]
        else
          currentCue == old(currentCue) && outbox == old(outbox)
          && status == Err(if target < |cues| then CueSendFailed else CueNotFound(number))
    {
      var target := if number >= 1 then number - 1 else 0;
      if target < |cues| {
        status := PlayAt(target, receiverAlive);
      } else {
        status := Err(CueNotFound(number));
      }
    }

    /**
     * `go_to_cue`: hands the cue's 0-based position to the 1-based `go_to_cue_idx`, so it
     * lands on the cue before the named one (on the first cue when the named one is first).
     */
    method GoToCue(name: string, receiverAlive: bool) returns (status: Result<(), CueError>)
      modifies this
      ensures cues == old(cues)
      ensures IndexOfName(cues, name).None? ==>
        status == Err(NoSuchCue(name)) && currentCue == old(currentCue) && outbox == old(outbox)
      ensures IndexOfName(cues, name).Some? ==>
        var p := IndexOfName(cues, name).value;
        var target := if p == 0 then 0 else p - 1;
        if receiverAlive then
          status.Ok? && currentCue == Some(target) && outbox == old(outbox) + [PlayCommand(target, cues[target])]
        else
          status == Err(CueSendFailed) && currentCue == old(currentCue) && outbox == old(outbox)
    {
      var found := IndexOfName(cues, name);
      if found.None? {
        return Err(NoSuchCue(name));
      }
      status := GoToCueIdx(found.value, receiverAlive);
    }
  }
}
