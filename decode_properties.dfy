/**
 * What decoding one frame does to the snapshot, action by action: partial
 * updates, the two resets, the frames that change nothing, the one frame
 * that asks for a status poll, and idempotence.
 */
module DecodeProperties {
  import opened JsValue
  import opened JsNumbers
  import opened PlayerInfo

  /**
   * `obj` is a JSON object owning `key` (a null or a primitive owns nothing).
   * This is `HasOwn` without its precondition, so that the properties below
   * can name keys of objects whose method calls throw; where `HasOwn` is
   * defined the two agree.
   */
  predicate Key(obj: Json, key: string) {
    obj.JObject? && key in obj.fields
  }

  /** A command-socket frame `{"Action": action, "Data": ...}` whose method calls do not throw. */
  predicate IsCommand(frame: Json, action: string) {
    !ThrowsOnMethodCall(frame) && Key(frame, "Action") && Key(frame, "Data")
    && frame.fields["Action"] == JString(action)
  }

  /** A notification frame `{"Notification": name, "Params": ...}` whose method calls do not throw. */
  predicate IsNotification(frame: Json, name: string) {
    !ThrowsOnMethodCall(frame) && Key(frame, "Notification") && Key(frame, "Params")
    && frame.fields["Notification"] == JString(name)
  }

  /** The notification `{"Notification": "StatusUpdate"}` with no `Params`. */
  predicate IsBareStatusUpdate(frame: Json) {
    !ThrowsOnMethodCall(frame) && Key(frame, "Notification") && !Key(frame, "Params")
    && frame.fields["Notification"] == JString("StatusUpdate")
  }

  /** The status data carries `LiveSession.LiveItem`. */
  predicate HasLiveItem(data: Json) {
    Key(data, "LiveSession") && Key(data.fields["LiveSession"], "LiveItem")
  }

  /**
   * Frames decoded without touching the snapshot: on the command socket, one
   * lacking `Action` or `Data`, a `ButtonEvent`, or one whose action is not
   * `GetSessionsStatus` or `GetVolume` and converts to a string; on the
   * notification socket, one lacking `Notification`, one with `Params` whose
   * name is neither `VolumeChanged` nor `Mute` and converts to a string, or
   * one without `Params` that is not `StatusUpdate`.
   */
  predicate Inert(port: int, frame: Json) {
    !ThrowsOnMethodCall(frame) &&
    if port == CommandWsPort then
      !Key(frame, "Action") || !Key(frame, "Data")
      || frame.fields["Action"] == JString("ButtonEvent")
      || (frame.fields["Action"] != JString("GetSessionsStatus") && frame.fields["Action"] != JString("GetVolume")
          && !ThrowsOnToString(frame.fields["Action"]))
    else
      !Key(frame, "Notification")
      || (Key(frame, "Params") && frame.fields["Notification"] != JString("VolumeChanged")
          && frame.fields["Notification"] != JString("Mute") && !ThrowsOnToString(frame.fields["Notification"]))
      || (!Key(frame, "Params") && frame.fields["Notification"] != JString("StatusUpdate"))
  }

  /**
   * `GetSessionsStatus`: power is false exactly for the standby application,
   * true for any other, and unchanged without `CurrentApplication`; volume
   * and mute are left as they were.
   */
  lemma SessionsStatusPower(s: Snapshot, frame: Json)
    requires IsCommand(frame, "GetSessionsStatus")
    ensures var data := frame.fields["Data"];
            var r := Decode(s, CommandWsPort, Some(frame));
            r.Some? ==>
              && r.value.info.power == (if Key(data, "CurrentApplication")
                                        then data.fields["CurrentApplication"] != JString(StandbyApplication)
                                        else s.power)
              && r.value.info.volume == Clone(s).volume && r.value.info.mute == Clone(s).mute
              && !r.value.requestsStatus
  {
  }

  /**
   * `GetSessionsStatus`: without a live item both channel and program are
   * reset; with one, a missing `CurrentChannel` resets only the channel and a
   * missing `CurrentProgram` only the program.
   */
  lemma SessionsStatusResets(s: Snapshot, frame: Json)
    requires IsCommand(frame, "GetSessionsStatus")
    ensures var data := frame.fields["Data"];
            var r := Decode(s, CommandWsPort, Some(frame));
            r.Some? ==>
              && (!HasLiveItem(data) ==> r.value.info.channel == NoChannel && r.value.info.program == NoProgram)
              && (HasLiveItem(data) ==>
                    var item := data.fields["LiveSession"].fields["LiveItem"];
                    && (!Key(item, "CurrentChannel") ==> r.value.info.channel == NoChannel)
                    && (!Key(item, "CurrentProgram") ==> r.value.info.program == NoProgram))
  {
  }

  /**
   * `GetSessionsStatus` with a current channel (program): every leaf takes the
   * frame's value, or its own default when the frame lacks it.
   */
  lemma SessionsStatusLeaves(s: Snapshot, frame: Json)
    requires IsCommand(frame, "GetSessionsStatus")
    requires HasLiveItem(frame.fields["Data"])
    ensures var item := frame.fields["Data"].fields["LiveSession"].fields["LiveItem"];
            var r := Decode(s, CommandWsPort, Some(frame));
            r.Some? ==>
              && (Key(item, "CurrentChannel") ==>
                    var c := item.fields["CurrentChannel"];
                    && r.value.info.channel.name == (if Key(c, "Name") then FromJson(c.fields["Name"]) else Null)
                    && (Key(c, "Id") ==> ParseInt(c.fields["Id"]) == Some(r.value.info.channel.number))
                    && (!Key(c, "Id") ==> r.value.info.channel.number == Number(0))
                    && r.value.info.channel.category == (if Key(c, "Category") then FromJson(c.fields["Category"]) else Null))
              && (Key(item, "CurrentProgram") ==>
                    var p := item.fields["CurrentProgram"];
                    r.value.info.program == Program(
                      if Key(p, "Name") then FromJson(p.fields["Name"]) else Null,
                      if Key(p, "Category") then FromJson(p.fields["Category"]) else Null))
  {
    var data := frame.fields["Data"];
    var item := data.fields["LiveSession"].fields["LiveItem"];
    var r := Decode(s, CommandWsPort, Some(frame));
    if r.Some? {
      assert SessionsStatus(Clone(s), data).Some?;
      if Key(item, "CurrentChannel") {
        var c := item.fields["CurrentChannel"];
        assert ReadChannel(c) == Some(r.value.info.channel);
        ReadChannelLeaves(c);
      }
    }
  }

  /** The leaves of a channel read from a `CurrentChannel` object. */
  lemma ReadChannelLeaves(c: Json)
    requires ReadChannel(c).Some?
    ensures var channel := ReadChannel(c).value;
            && channel.name == (if Key(c, "Name") then FromJson(c.fields["Name"]) else Null)
            && (Key(c, "Id") ==> ParseInt(c.fields["Id"]) == Some(channel.number))
            && (!Key(c, "Id") ==> channel.number == Number(0))
            && channel.category == (if Key(c, "Category") then FromJson(c.fields["Category"]) else Null)
  {
  }

  /**
   * `GetSessionsStatus` throws exactly when one of the objects it inspects is
   * null (or shadows `hasOwnProperty`), or when the channel `Id` cannot be
   * converted to a string for `parseInt`.
   */
  lemma SessionsStatusThrows(s: Snapshot, frame: Json)
    requires IsCommand(frame, "GetSessionsStatus")
    ensures var data := frame.fields["Data"];
            Decode(s, CommandWsPort, Some(frame)).None? <==>
              || ThrowsOnMethodCall(data)
              || (Key(data, "LiveSession") && ThrowsOnMethodCall(data.fields["LiveSession"]))
              || (HasLiveItem(data) &&
                   var item := data.fields["LiveSession"].fields["LiveItem"];
                   || ThrowsOnMethodCall(item)
                   || (Key(item, "CurrentChannel") && ThrowsOnMethodCall(item.fields["CurrentChannel"]))
                   || (Key(item, "CurrentChannel") && Key(item.fields["CurrentChannel"], "Id")
                       && ThrowsOnToString(item.fields["CurrentChannel"].fields["Id"]))
                   || (Key(item, "CurrentProgram") && ThrowsOnMethodCall(item.fields["CurrentProgram"])))
  {
  }

  /**
   * `GetVolume`: volume changes only with `CurrentLevel`, mute only with
   * `IsMute`; power, channel and program are never touched. It throws on null
   * data, or when `CurrentLevel` cannot be converted to a string.
   */
  lemma GetVolumePartialUpdate(s: Snapshot, frame: Json)
    requires IsCommand(frame, "GetVolume")
    ensures var data := frame.fields["Data"];
            var r := Decode(s, CommandWsPort, Some(frame));
            && (r.None? <==> ThrowsOnMethodCall(data)
                             || (Key(data, "CurrentLevel") && ThrowsOnToString(data.fields["CurrentLevel"])))
            && (r.Some? ==>
                  && (Key(data, "CurrentLevel") ==> ParseInt(data.fields["CurrentLevel"]) == Some(r.value.info.volume))
                  && (!Key(data, "CurrentLevel") ==> r.value.info.volume == Clone(s).volume)
                  && r.value.info.mute == (if Key(data, "IsMute") then FromJson(data.fields["IsMute"]) else Clone(s).mute)
                  && r.value.info.power == s.power
                  && r.value.info.channel == Clone(s).channel
                  && r.value.info.program == Clone(s).program
                  && !r.value.requestsStatus)
  {
  }

  /**
   * `VolumeChanged` with `Level` sets the volume and clears mute; without it
   * nothing changes. It throws on null parameters, or when `Level` cannot be
   * converted to a string.
   */
  lemma VolumeChangedNotification(s: Snapshot, port: int, frame: Json)
    requires port != CommandWsPort
    requires IsNotification(frame, "VolumeChanged")
    ensures var params := frame.fields["Params"];
            var r := Decode(s, port, Some(frame));
            && (r.None? <==> ThrowsOnMethodCall(params) || (Key(params, "Level") && ThrowsOnToString(params.fields["Level"])))
            && (r.Some? ==>
                  && (Key(params, "Level") ==>
                        && ParseInt(params.fields["Level"]) == Some(r.value.info.volume)
                        && r.value == Decoded(Clone(s).(volume := r.value.info.volume, mute := Bool(false)), false))
                  && (!Key(params, "Level") ==> r.value == Decoded(Clone(s), false)))
  {
  }

  /** `Mute` with `State` changes mute and nothing else. */
  lemma MuteNotification(s: Snapshot, port: int, frame: Json)
    requires port != CommandWsPort
    requires IsNotification(frame, "Mute")
    ensures var params := frame.fields["Params"];
            var r := Decode(s, port, Some(frame));
            && (r.None? <==> ThrowsOnMethodCall(params))
            && (r.Some? ==>
                  r.value == Decoded(
                    if Key(params, "State") then Clone(s).(mute := FromJson(params.fields["State"])) else Clone(s),
                    false))
  {
  }

  /** Inert frames leave the (copied) snapshot as it is and ask for nothing. */
  lemma InertFramesChangeNothing(s: Snapshot, port: int, frame: Json)
    requires Inert(port, frame)
    ensures Decode(s, port, Some(frame)) == Some(Decoded(Clone(s), false))
    ensures NaNFree(s) ==> Decode(s, port, Some(frame)) == Some(Decoded(s, false))
  {
  }

  /**
   * A command whose action has no case of its own is concatenated into a log
   * message, built even when logging is off: the frame throws exactly when
   * the action cannot be converted to a string, and changes nothing otherwise.
   */
  lemma UnknownActionIsLogged(s: Snapshot, frame: Json)
    requires !ThrowsOnMethodCall(frame) && Key(frame, "Action") && Key(frame, "Data")
    requires frame.fields["Action"] !in {JString("GetSessionsStatus"), JString("GetVolume"), JString("ButtonEvent")}
    ensures Decode(s, CommandWsPort, Some(frame))
            == if ThrowsOnToString(frame.fields["Action"]) then None else Some(Decoded(Clone(s), false))
  {
  }

  /** The same for a notification with parameters whose name has no case of its own. */
  lemma UnknownNotificationIsLogged(s: Snapshot, port: int, frame: Json)
    requires port != CommandWsPort
    requires !ThrowsOnMethodCall(frame) && Key(frame, "Notification") && Key(frame, "Params")
    requires frame.fields["Notification"] !in {JString("VolumeChanged"), JString("Mute")}
    ensures Decode(s, port, Some(frame))
            == if ThrowsOnToString(frame.fields["Notification"]) then None else Some(Decoded(Clone(s), false))
  {
  }

  /**
   * A status poll is requested exactly by a `StatusUpdate` notification
   * without parameters, which leaves the snapshot as it is.
   */
  lemma StatusPollOnlyFromBareStatusUpdate(s: Snapshot, port: int, frame: Json)
    ensures (var r := Decode(s, port, Some(frame)); r.Some? && r.value.requestsStatus)
            <==> port != CommandWsPort && IsBareStatusUpdate(frame)
    ensures port != CommandWsPort && IsBareStatusUpdate(frame) ==>
              Decode(s, port, Some(frame)) == Some(Decoded(Clone(s), true))
  {
  }

  /** Whether a frame throws depends on the frame alone, never on the snapshot. */
  lemma ThrowingDependsOnFrameOnly(s: Snapshot, t: Snapshot, port: int, message: Option<Json>)
    ensures Decode(s, port, message).None? <==> Decode(t, port, message).None?
  {
  }

  /** Decoding a frame against its own result gives the same result again. */
  lemma DecodeIdempotent(s: Snapshot, port: int, message: Option<Json>)
    requires Decode(s, port, message).Some?
    ensures Decode(Decode(s, port, message).value.info, port, message) == Decode(s, port, message)
  {
    var frame := message.value;
    var base := Clone(s);
    var info := Decode(s, port, message).value.info;
    if port == CommandWsPort {
      CommandIdempotent(base, frame);
    } else {
      NotificationIdempotent(base, frame);
    }
  }

  lemma CommandIdempotent(base: Snapshot, frame: Json)
    requires NaNFree(base) && DecodeCommand(base, frame).Some?
    ensures DecodeCommand(Clone(DecodeCommand(base, frame).value), frame) == DecodeCommand(base, frame)
  {
    if HasOwn(frame, "Action") && HasOwn(frame, "Data") {
      var data := frame.fields["Data"];
      if frame.fields["Action"] == JString("GetSessionsStatus") {
        SessionsStatusIdempotent(base, data);
      } else if frame.fields["Action"] == JString("GetVolume") {
        VolumeIdempotent(base, data);
      }
    }
  }

  lemma SessionsStatusIdempotent(base: Snapshot, data: Json)
    requires NaNFree(base) && SessionsStatus(base, data).Some?
    ensures SessionsStatus(Clone(SessionsStatus(base, data).value), data) == SessionsStatus(base, data)
  {
    var r := SessionsStatus(base, data).value;
    assert Clone(r).volume == base.volume && Clone(r).mute == base.mute;
  }

  lemma VolumeIdempotent(base: Snapshot, data: Json)
    requires NaNFree(base) && Volume(base, data).Some?
    ensures Volume(Clone(Volume(base, data).value), data) == Volume(base, data)
  {
    var r := Volume(base, data).value;
    assert Clone(r).channel == base.channel && Clone(r).program == base.program;
  }

  lemma NotificationIdempotent(base: Snapshot, frame: Json)
    requires NaNFree(base) && DecodeNotification(base, frame).Some?
    ensures DecodeNotification(Clone(DecodeNotification(base, frame).value.info), frame) == DecodeNotification(base, frame)
  {
    var r := DecodeNotification(base, frame).value.info;
    assert Clone(r).channel == base.channel && Clone(r).program == base.program;
  }
}
