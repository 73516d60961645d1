/**
 * The events the client emits, and `sendUpdateNotifications`: the field by
 * field comparison of the committed snapshot with the decoded one.
 */
module Notify {
  import opened JsValue
  import opened PlayerInfo

  /** One emitted event, with its payload. */
  datatype Event =
    | PowerEvent(power: bool)
    | VolumeEvent(volume: Val)
    | MuteEvent(mute: Val)
    | ChannelEvent(channel: Channel)
    | ProgramEvent(program: Program)
    | UpdateEvent(info: Snapshot)
    | OpenEvent
    | CloseEvent

  /** The position of an event in the fixed emission order. */
  function Rank(e: Event): nat {
    match e
    case PowerEvent(_) => 0
    case VolumeEvent(_) => 1
    case MuteEvent(_) => 2
    case ChannelEvent(_) => 3
    case ProgramEvent(_) => 4
    case UpdateEvent(_) => 5
    case OpenEvent => 6
    case CloseEvent => 7
  }

  /** Some leaf of the channel is `!==` its counterpart. */
  predicate ChannelDiffers(a: Channel, b: Channel) {
    !StrictEquals(a.name, b.name) || !StrictEquals(a.number, b.number) || !StrictEquals(a.category, b.category)
  }

  /** Some leaf of the program is `!==` its counterpart. */
  predicate ProgramDiffers(a: Program, b: Program) {
    !StrictEquals(a.name, b.name) || !StrictEquals(a.category, b.category)
  }

  /** No field of `after` compares as changed against `before`. */
  predicate Unchanged(before: Snapshot, after: Snapshot) {
    after.power == before.power
    && StrictEquals(after.volume, before.volume)
    && StrictEquals(after.mute, before.mute)
    && !ChannelDiffers(after.channel, before.channel)
    && !ProgramDiffers(after.program, before.program)
  }

  /** The event carries the new snapshot's value of its field, or the whole new snapshot. */
  predicate Carries(e: Event, after: Snapshot) {
    match e
    case PowerEvent(power) => power == after.power
    case VolumeEvent(volume) => volume == after.volume
    case MuteEvent(mute) => mute == after.mute
    case ChannelEvent(channel) => channel == after.channel
    case ProgramEvent(program) => program == after.program
    case UpdateEvent(info) => info == after
    case _ => false
  }

  /** Ranks strictly increase along the sequence: each kind at most once, in the fixed order. */
  predicate Ascending(events: seq<Event>) {
    forall i, j :: 0 <= i < j < |events| ==> Rank(events[i]) < Rank(events[j])
  }

  /** Every event of the sequence ranks below `bound`. */
  predicate RanksBelow(events: seq<Event>, bound: nat) {
    forall i :: 0 <= i < |events| ==> Rank(events[i]) < bound
  }

  /** Every event of the sequence carries `after`'s values. */
  predicate AllCarry(events: seq<Event>, after: Snapshot) {
    forall i :: 0 <= i < |events| ==> Carries(events[i], after)
  }

  /** One check of `sendUpdateNotifications`: append `e` when its field changed. */
  function Emit(events: seq<Event>, changed: bool, e: Event): seq<Event> {
    if changed then events + [e] else events
  }

  /** Appending a later-ranked event carrying `after` keeps the order and what the events carry. */
  lemma EmitKeepsOrder(events: seq<Event>, changed: bool, e: Event, after: Snapshot)
    requires Ascending(events) && RanksBelow(events, Rank(e)) && AllCarry(events, after)
    requires Carries(e, after)
    ensures var r := Emit(events, changed, e);
            Ascending(r) && RanksBelow(r, Rank(e) + 1) && AllCarry(r, after)
  {
  }

  lemma EmitMember(events: seq<Event>, changed: bool, e: Event, x: Event)
    ensures x in Emit(events, changed, e) <==> x in events || (changed && x == e)
  {
  }

  /** The first three checks, on the top-level leaves power, volume and mute. */
  function LeafEvents(before: Snapshot, after: Snapshot): seq<Event> {
    var power := Emit([], after.power != before.power, PowerEvent(after.power));
    var volume := Emit(power, !StrictEquals(after.volume, before.volume), VolumeEvent(after.volume));
    Emit(volume, !StrictEquals(after.mute, before.mute), MuteEvent(after.mute))
  }

  /** The field events, checked in the order power, volume, mute, channel, program. */
  function FieldEvents(before: Snapshot, after: Snapshot): seq<Event> {
    var channel := Emit(LeafEvents(before, after), ChannelDiffers(after.channel, before.channel), ChannelEvent(after.channel));
    Emit(channel, ProgramDiffers(after.program, before.program), ProgramEvent(after.program))
  }

  lemma LeafEventsOrdered(before: Snapshot, after: Snapshot)
    ensures var events := LeafEvents(before, after);
            Ascending(events) && RanksBelow(events, 3) && AllCarry(events, after)
  {
    var power := Emit([], after.power != before.power, PowerEvent(after.power));
    EmitKeepsOrder([], after.power != before.power, PowerEvent(after.power), after);
    EmitKeepsOrder(power, !StrictEquals(after.volume, before.volume), VolumeEvent(after.volume), after);
    var volume := Emit(power, !StrictEquals(after.volume, before.volume), VolumeEvent(after.volume));
    EmitKeepsOrder(volume, !StrictEquals(after.mute, before.mute), MuteEvent(after.mute), after);
  }

  /** The field events come in rank order, below `update`, each carrying the new value. */
  lemma FieldEventsOrdered(before: Snapshot, after: Snapshot)
    ensures var events := FieldEvents(before, after);
            Ascending(events) && RanksBelow(events, 5) && AllCarry(events, after)
  {
    var leaves := LeafEvents(before, after);
    LeafEventsOrdered(before, after);
    EmitKeepsOrder(leaves, ChannelDiffers(after.channel, before.channel), ChannelEvent(after.channel), after);
    var channel := Emit(leaves, ChannelDiffers(after.channel, before.channel), ChannelEvent(after.channel));
    EmitKeepsOrder(channel, ProgramDiffers(after.program, before.program), ProgramEvent(after.program), after);
  }

  /**
   * The events that committing `after` over `before` emits: field events in
   * the order power, volume, mute, channel, program, each carrying the new
   * value, then a single `update` carrying the new snapshot when any fired.
   */
  function Diff(before: Snapshot, after: Snapshot): (events: seq<Event>)
    ensures events != [] ==> events[|events| - 1] == UpdateEvent(after)
    ensures AllCarry(events, after)
    ensures Ascending(events)
  {
    var fields := FieldEvents(before, after);
    FieldEventsOrdered(before, after);
    EmitKeepsOrder(fields, fields != [], UpdateEvent(after), after);
    Emit(fields, fields != [], UpdateEvent(after))
  }

  /** Each field event fires exactly when its field changed (a channel or program when any of its leaves did). */
  lemma DiffFiresExactlyChangedFields(before: Snapshot, after: Snapshot)
    ensures var events := Diff(before, after);
            && (PowerEvent(after.power) in events <==> after.power != before.power)
            && (VolumeEvent(after.volume) in events <==> !StrictEquals(after.volume, before.volume))
            && (MuteEvent(after.mute) in events <==> !StrictEquals(after.mute, before.mute))
            && (ChannelEvent(after.channel) in events <==> ChannelDiffers(after.channel, before.channel))
            && (ProgramEvent(after.program) in events <==> ProgramDiffers(after.program, before.program))
  {
    var p, v, m, c, g := PowerEvent(after.power), VolumeEvent(after.volume), MuteEvent(after.mute),
                         ChannelEvent(after.channel), ProgramEvent(after.program);
    var power := Emit([], after.power != before.power, p);
    var volume := Emit(power, !StrictEquals(after.volume, before.volume), v);
    var mute := Emit(volume, !StrictEquals(after.mute, before.mute), m);
    assert mute == LeafEvents(before, after);
    var channel := Emit(mute, ChannelDiffers(after.channel, before.channel), c);
    var fields := Emit(channel, ProgramDiffers(after.program, before.program), g);
    assert fields == FieldEvents(before, after);
    var events := Diff(before, after);
    assert events == Emit(fields, fields != [], UpdateEvent(after));
    var update := UpdateEvent(after);
    assert p in events <==> after.power != before.power by {
      EmitMember([], after.power != before.power, p, p);
      EmitMember(power, !StrictEquals(after.volume, before.volume), v, p);
      EmitMember(volume, !StrictEquals(after.mute, before.mute), m, p);
      EmitMember(mute, ChannelDiffers(after.channel, before.channel), c, p);
      EmitMember(channel, ProgramDiffers(after.program, before.program), g, p);
      EmitMember(fields, fields != [], update, p);
    }
    assert v in events <==> !StrictEquals(after.volume, before.volume) by {
      EmitMember(power, !StrictEquals(after.volume, before.volume), v, v);
      EmitMember(volume, !StrictEquals(after.mute, before.mute), m, v);
      EmitMember(mute, ChannelDiffers(after.channel, before.channel), c, v);
      EmitMember(channel, ProgramDiffers(after.program, before.program), g, v);
      EmitMember(fields, fields != [], update, v);
    }
    assert m in events <==> !StrictEquals(after.mute, before.mute) by {
      EmitMember(volume, !StrictEquals(after.mute, before.mute), m, m);
      EmitMember(mute, ChannelDiffers(after.channel, before.channel), c, m);
      EmitMember(channel, ProgramDiffers(after.program, before.program), g, m);
      EmitMember(fields, fields != [], update, m);
    }
    assert c in events <==> ChannelDiffers(after.channel, before.channel) by {
      EmitMember(mute, ChannelDiffers(after.channel, before.channel), c, c);
      EmitMember(channel, ProgramDiffers(after.program, before.program), g, c);
      EmitMember(fields, fields != [], update, c);
    }
    assert g in events <==> ProgramDiffers(after.program, before.program) by {
      EmitMember(channel, ProgramDiffers(after.program, before.program), g, g);
      EmitMember(fields, fields != [], update, g);
    }
  }

  /** Nothing at all is emitted exactly when no field changed. */
  lemma DiffEmptyIffUnchanged(before: Snapshot, after: Snapshot)
    ensures Diff(before, after) == [] <==> Unchanged(before, after)
  {
    var fields := FieldEvents(before, after);
    if fields != [] {
      assert fields[0] in fields;
    }
  }
}
