/**
 * Decoding and diffing together, as the message handler runs them: when a
 * repeated frame is silent, and what a few concrete frames emit.
 */
module Reconcile {
  import opened JsValue
  import opened PlayerInfo
  import opened DecodeProperties
  import opened Notify

  /** Comparing a snapshot with itself is silent exactly when every leaf is `===` to itself. */
  lemma DiffSelfEmptyIffScalar(s: Snapshot)
    ensures Diff(s, s) == [] <==> Scalar(s)
  {
    DiffEmptyIffUnchanged(s, s);
  }

  /**
   * Handling the same frame twice in a row: the second decode yields the
   * snapshot the first one committed, and, when its leaves are scalars, no
   * event is emitted the second time.
   */
  lemma HandlingTwiceIsQuiet(s: Snapshot, port: int, message: Option<Json>)
    requires Decode(s, port, message).Some?
    requires Scalar(Decode(s, port, message).value.info)
    ensures var d := Decode(s, port, message).value;
            Decode(d.info, port, message) == Some(d) && Diff(d.info, d.info) == []
  {
    DecodeIdempotent(s, port, message);
    DiffSelfEmptyIffScalar(Decode(s, port, message).value.info);
  }

  /** A status report whose current channel is named by an empty object. */
  const ObjectNameFrame: Json := JObject(map[
    "Action" := JString("GetSessionsStatus"),
    "Data" := JObject(map["LiveSession" := JObject(map["LiveItem" := JObject(map[
      "CurrentChannel" := JObject(map["Name" := JObject(map[])])])])])])

  /**
   * The scalar premise above cannot be dropped: a channel name that is an
   * object is a fresh reference after every decode, so the same frame
   * announces the channel again every time.
   */
  lemma ObjectLeafFiresEveryTime()
    ensures var first := Decode(InitialPlayerInfo, CommandWsPort, Some(ObjectNameFrame));
            && first.Some?
            && Decode(first.value.info, CommandWsPort, Some(ObjectNameFrame)) == first
            && Diff(first.value.info, first.value.info)
               == [ChannelEvent(first.value.info.channel), UpdateEvent(first.value.info)]
  {
    var first := Decode(InitialPlayerInfo, CommandWsPort, Some(ObjectNameFrame));
    SessionsStatusLeaves(InitialPlayerInfo, ObjectNameFrame);
    SessionsStatusPower(InitialPlayerInfo, ObjectNameFrame);
    DecodeIdempotent(InitialPlayerInfo, CommandWsPort, Some(ObjectNameFrame));
    ObjectNameDiff(first.value.info);
  }

  /** A snapshot whose only composite leaf is the channel name differs from itself in the channel alone. */
  lemma ObjectNameDiff(s: Snapshot)
    requires s.channel.name.Composite?
    requires SelfIdentical(s.volume) && SelfIdentical(s.mute)
    requires SelfIdentical(s.program.name) && SelfIdentical(s.program.category)
    ensures Diff(s, s) == [ChannelEvent(s.channel), UpdateEvent(s)]
  {
  }

  /**
   * Two snapshots that differ exactly in volume and channel produce exactly
   * the events volume, channel, update, in that order.
   */
  lemma DiffVolumeAndChannel(before: Snapshot, after: Snapshot)
    requires after.power == before.power
    requires !StrictEquals(after.volume, before.volume)
    requires StrictEquals(after.mute, before.mute)
    requires ChannelDiffers(after.channel, before.channel)
    requires !ProgramDiffers(after.program, before.program)
    ensures Diff(before, after) == [VolumeEvent(after.volume), ChannelEvent(after.channel), UpdateEvent(after)]
  {
  }

  /** The standby report `{"Action":"GetSessionsStatus","Data":{"CurrentApplication":"En Veille"}}`. */
  const StandbyFrame: Json := JObject(map[
    "Action" := JString("GetSessionsStatus"),
    "Data" := JObject(map["CurrentApplication" := JString(StandbyApplication)])])

  /**
   * The standby report received while the box is on: power goes false, and
   * since the frame has no live session, channel and program are reset too,
   * so they are announced whenever they were set.
   */
  lemma StandbyReport(s: Snapshot)
    requires s.power && Scalar(s)
    ensures var after := s.(power := false, channel := NoChannel, program := NoProgram);
            && Decode(s, CommandWsPort, Some(StandbyFrame)) == Some(Decoded(after, false))
            && Diff(s, after)
               == [PowerEvent(false)]
                  + (if s.channel != NoChannel then [ChannelEvent(NoChannel)] else [])
                  + (if s.program != NoProgram then [ProgramEvent(NoProgram)] else [])
                  + [UpdateEvent(after)]
  {
    StandbyDecode(s);
    StandbyDiff(s);
  }

  lemma StandbyDecode(s: Snapshot)
    requires Scalar(s)
    ensures Decode(s, CommandWsPort, Some(StandbyFrame))
            == Some(Decoded(s.(power := false, channel := NoChannel, program := NoProgram), false))
  {
    SessionsStatusPower(s, StandbyFrame);
    SessionsStatusResets(s, StandbyFrame);
    assert Clone(s) == s;
  }

  lemma StandbyDiff(s: Snapshot)
    requires s.power && Scalar(s)
    ensures var after := s.(power := false, channel := NoChannel, program := NoProgram);
            Diff(s, after)
            == [PowerEvent(false)]
               + (if s.channel != NoChannel then [ChannelEvent(NoChannel)] else [])
               + (if s.program != NoProgram then [ProgramEvent(NoProgram)] else [])
               + [UpdateEvent(after)]
  {
  }
}
