/**
 * The client object: the committed snapshot, the command socket's
 * readiness, the events emitted so far and the frames sent so far. Sockets
 * are reduced to the callbacks that drive this state: open, close or error,
 * and an inbound frame.
 */
module Labox {
  import opened JsValue
  import opened JsNumbers
  import opened PlayerInfo
  import opened Notify

  /** The status poll sent on the command socket. */
  const StatusFrame: string :=
    "{\"Params\":{\"Action\":\"GetSessionsStatus\",\"Token\":\"LAN\",\"StbToken\":\"123456\",\"DeviceId\":\"123456\",\"DeviceModel\":\"Model\",\"DeviceSoftVersion\":\"1.0\"}}"

  /** The volume poll sent on the command socket. */
  const VolumeFrame: string :=
    "{\"Params\":{\"Action\":\"GetVolume\",\"Token\":\"LAN\",\"DeviceId\":\"123456\",\"DeviceModel\":\"Model\",\"DeviceSoftVersion\":\"1.0\"}}"

  /** Everything a button frame holds before the key code. */
  const ButtonEventPrefix: string :=
    "{\"Params\":{\"Action\":\"ButtonEvent\",\"Token\":\"LAN\",\"DeviceId\":\"123456\",\"DeviceModel\":\"Model\",\"DeviceSoftVersion\":\"1.0\",\"Press\":["

  /** What closes a button frame after the key code. */
  const ButtonEventSuffix: string := "]}}"

  /** `frame` is `prefix`, then at least one character, then `suffix`. */
  predicate Encloses(frame: string, prefix: string, suffix: string) {
    |frame| > |prefix| + |suffix| && frame[..|prefix|] == prefix && frame[|frame| - |suffix|..] == suffix
  }

  /** What lies between `prefix` and `suffix`, read as `parseInt` reads it. */
  function CodeBetween(frame: string, prefix: string, suffix: string): Val {
    if |frame| < |prefix| + |suffix| then NaN else ParseIntString(frame[|prefix|..|frame| - |suffix|])
  }

  /** The key code a button frame carries. */
  function PressedCode(frame: string): Val {
    CodeBetween(frame, ButtonEventPrefix, ButtonEventSuffix)
  }

  /** A code written in decimal between two fixed strings is enclosed by them and reads back whole. */
  lemma FramedCode(prefix: string, code: int, suffix: string)
    ensures var frame := prefix + IntToDecimal(code) + suffix;
            Encloses(frame, prefix, suffix) && CodeBetween(frame, prefix, suffix) == Number(code)
  {
    var digits := IntToDecimal(code);
    var frame := prefix + digits + suffix;
    ParseIntOfDecimal(code);
    assert frame[|prefix|..|frame| - |suffix|] == digits;
    assert frame[..|prefix|] == prefix;
    assert frame[|frame| - |suffix|..] == suffix;
  }

  /**
   * The frame pressing one remote key: the code is written in decimal
   * between the fixed prefix and suffix, and reads back as the same code.
   */
  function ButtonEventFrame(code: int): (frame: string)
    ensures PressedCode(frame) == Number(code)
    ensures Encloses(frame, ButtonEventPrefix, ButtonEventSuffix)
  {
    FramedCode(ButtonEventPrefix, code, ButtonEventSuffix);
    ButtonEventPrefix + IntToDecimal(code) + ButtonEventSuffix
  }

  /** Two different key codes never produce the same frame. */
  lemma ButtonEventFrameInjective(a: int, b: int)
    ensures ButtonEventFrame(a) == ButtonEventFrame(b) <==> a == b
  {
    if ButtonEventFrame(a) == ButtonEventFrame(b) {
      assert PressedCode(ButtonEventFrame(a)) == Number(a);
    }
  }

  /** Appending one check's outcome to a log that already holds the earlier ones. */
  lemma AppendEmit(log: seq<Event>, events: seq<Event>, changed: bool, e: Event)
    ensures log + Emit(events, changed, e) == if changed then (log + events) + [e] else log + events
    ensures Emit(events, changed, e) != [] <==> events != [] || changed
  {
  }

  /**
   * The message listener as written: when decoding throws, the decoder
   * returns `undefined`, and the diff's first property read on it throws
   * again, this time out of the listener itself.
   */
  predicate ListenerThrowsAsWritten(current: Snapshot, port: int, message: Option<Json>) {
    Decode(current, port, message).None?
  }

  /** A command frame whose `Data` is null. */
  const NullDataFrame: Json := JObject(map["Action" := JString("GetVolume"), "Data" := JNull])

  /** A volume response whose level is an object owning `toString`, which `parseInt` cannot convert. */
  const UnconvertibleLevelFrame: Json :=
    JObject(map["Action" := JString("GetVolume"), "Data" := JObject(map["CurrentLevel" := JObject(map["toString" := JNumber(0)])])])

  /**
   * A frame that is not JSON, a volume response with null data, and one
   * whose level cannot be converted to a string all escape the listener as
   * an exception.
   */
  lemma MalformedFramesEscapeListener(s: Snapshot)
    ensures ListenerThrowsAsWritten(s, CommandWsPort, None)
    ensures ListenerThrowsAsWritten(s, CommandWsPort, Some(NullDataFrame))
    ensures ListenerThrowsAsWritten(s, CommandWsPort, Some(UnconvertibleLevelFrame))
    ensures ListenerThrowsAsWritten(s, NotificationWsPort, None)
  {
  }

  class LaboxTv {
    /** The committed snapshot `getInfo` returns. */
    var playerInfo: Snapshot
    /** The command socket is in the OPEN state. */
    var commandOpen: bool
    /** Every event emitted so far, oldest first. */
    var emitted: seq<Event>
    /** Every frame written to the command socket so far, oldest first. */
    var sent: seq<string>

    /** A fresh client: the initial snapshot, no socket open yet, nothing emitted or sent. */
    constructor()
      ensures playerInfo == InitialPlayerInfo && !commandOpen && emitted == [] && sent == []
    {
      playerInfo := InitialPlayerInfo;
      commandOpen := false;
      emitted := [];
      sent := [];
    }

    /** `getInfo`: the committed snapshot; nothing changes. */
    method GetInfo() returns (info: Snapshot)
      ensures info == playerInfo
    {
      info := playerInfo;
    }

    /** `sendCommandToLabox`: the frame goes out only while the command socket is open. */
    method SendCommandToLabox(command: string)
      modifies this`sent
      ensures commandOpen ==> sent == old(sent) + [command]
      ensures !commandOpen ==> sent == old(sent)
    {
      if commandOpen {
        sent := sent + [command];
      }
    }

    /** `getLaboxStatus`: poll the session status. */
    method GetLaboxStatus()
      modifies this`sent
      ensures sent == old(sent) + (if commandOpen then [StatusFrame] else [])
    {
      SendCommandToLabox(StatusFrame);
    }

    /** `getLaboxVolume`: poll the volume. */
    method GetLaboxVolume()
      modifies this`sent
      ensures sent == old(sent) + (if commandOpen then [VolumeFrame] else [])
    {
      SendCommandToLabox(VolumeFrame);
    }

    /** `sendButtonEvent`: press one remote key. */
    method SendButtonEvent(code: int)
      modifies this`sent
      ensures sent == old(sent) + (if commandOpen then [ButtonEventFrame(code)] else [])
    {
      SendCommandToLabox(ButtonEventFrame(code));
    }

    /**
     * A socket reached OPEN. For the command socket: `open` is emitted, then
     * the status and the volume are polled; the notification socket changes
     * nothing here.
     */
    method OnSocketOpen(port: int)
      modifies this`commandOpen, this`emitted, this`sent
      ensures port == CommandWsPort ==>
                commandOpen && emitted == old(emitted) + [OpenEvent] && sent == old(sent) + [StatusFrame, VolumeFrame]
      ensures port != CommandWsPort ==>
                commandOpen == old(commandOpen) && emitted == old(emitted) && sent == old(sent)
    {
      if port == CommandWsPort {
        commandOpen := true;
        emitted := emitted + [OpenEvent];
        GetLaboxStatus();
        GetLaboxVolume();
      }
    }

    /**
     * A socket closed or failed, and a new one is being opened in its place.
     * For the command socket `close` is emitted and commands are dropped until
     * the replacement opens.
     */
    method OnSocketClosed(port: int)
      modifies this`commandOpen, this`emitted
      ensures port == CommandWsPort ==> !commandOpen && emitted == old(emitted) + [CloseEvent]
      ensures port != CommandWsPort ==> commandOpen == old(commandOpen) && emitted == old(emitted)
    {
      if port == CommandWsPort {
        commandOpen := false;
        emitted := emitted + [CloseEvent];
      }
    }

    /**
     * `sendUpdateNotifications(next)`: compare `next` with the committed
     * snapshot field by field, emit each change, then `update` if any fired.
     */
    method SendUpdateNotifications(next: Snapshot)
      modifies this`emitted
      ensures emitted == old(emitted) + Diff(playerInfo, next)
    {
      var update := false;
      ghost var power := Emit([], next.power != playerInfo.power, PowerEvent(next.power));
      if next.power != playerInfo.power {
        update := true;
        emitted := emitted + [PowerEvent(next.power)];
      }
      AppendEmit(old(emitted), [], next.power != playerInfo.power, PowerEvent(next.power));
      assert emitted == old(emitted) + power && (update <==> power != []);
      ghost var volume := Emit(power, !StrictEquals(next.volume, playerInfo.volume), VolumeEvent(next.volume));
      if !StrictEquals(next.volume, playerInfo.volume) {
        update := true;
        emitted := emitted + [VolumeEvent(next.volume)];
      }
      AppendEmit(old(emitted), power, !StrictEquals(next.volume, playerInfo.volume), VolumeEvent(next.volume));
      assert emitted == old(emitted) + volume && (update <==> volume != []);
      ghost var mute := Emit(volume, !StrictEquals(next.mute, playerInfo.mute), MuteEvent(next.mute));
      if !StrictEquals(next.mute, playerInfo.mute) {
        update := true;
        emitted := emitted + [MuteEvent(next.mute)];
      }
      AppendEmit(old(emitted), volume, !StrictEquals(next.mute, playerInfo.mute), MuteEvent(next.mute));
      assert emitted == old(emitted) + mute && (update <==> mute != []);
      assert mute == LeafEvents(playerInfo, next);
      ghost var channel := Emit(mute, ChannelDiffers(next.channel, playerInfo.channel), ChannelEvent(next.channel));
      if ChannelDiffers(next.channel, playerInfo.channel) {
        update := true;
        emitted := emitted + [ChannelEvent(next.channel)];
      }
      AppendEmit(old(emitted), mute, ChannelDiffers(next.channel, playerInfo.channel), ChannelEvent(next.channel));
      assert emitted == old(emitted) + channel && (update <==> channel != []);
      ghost var fields := Emit(channel, ProgramDiffers(next.program, playerInfo.program), ProgramEvent(next.program));
      if ProgramDiffers(next.program, playerInfo.program) {
        update := true;
        emitted := emitted + [ProgramEvent(next.program)];
      }
      AppendEmit(old(emitted), channel, ProgramDiffers(next.program, playerInfo.program), ProgramEvent(next.program));
      assert emitted == old(emitted) + fields && (update <==> fields != []);
      assert fields == FieldEvents(playerInfo, next);
      assert Diff(playerInfo, next) == Emit(fields, update, UpdateEvent(next));
      AppendEmit(old(emitted), fields, update, UpdateEvent(next));
      if update {
        emitted := emitted + [UpdateEvent(next)];
      }
    }

    /**
     * The `message` handler: decode the frame against the committed snapshot
     * (a `StatusUpdate` notification polls the status on the way), emit the
     * differences, then commit the decoded snapshot. A frame whose decoding
     * throws leaves everything as it was.
     */
    method HandleMessage(port: int, message: Option<Json>)
      modifies this`playerInfo, this`emitted, this`sent
      ensures var r := Decode(old(playerInfo), port, message);
              if r.None? then
                playerInfo == old(playerInfo) && emitted == old(emitted) && sent == old(sent)
              else
                && sent == old(sent) + (if r.value.requestsStatus && commandOpen then [StatusFrame] else [])
                && emitted == old(emitted) + Diff(old(playerInfo), r.value.info)
                && playerInfo == r.value.info
      ensures emitted != old(emitted) ==> |emitted| > 0 && emitted[|emitted| - 1] == UpdateEvent(playerInfo)
    {
      var r := Decode(playerInfo, port, message);
      if r.Some? {
        if r.value.requestsStatus {
          GetLaboxStatus();
        }
        SendUpdateNotifications(r.value.info);
        playerInfo := r.value.info;
      }
    }
  }
}
