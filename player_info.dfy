/**
 * The player-info snapshot the client keeps for the set-top box, and the
 * decoder that turns one inbound frame into the next snapshot
 * (`getPlayerInfoFromMessage`).
 */
module PlayerInfo {
  import opened JsValue
  import opened JsNumbers

  /** Port of the request/response socket. */
  const CommandWsPort: int := 7682
  /** Port of the server-push socket. */
  const NotificationWsPort: int := 7684
  /** The `CurrentApplication` the box reports while it is in standby. */
  const StandbyApplication: string := "En Veille"

  datatype Channel = Channel(name: Val, number: Val, category: Val)
  datatype Program = Program(name: Val, category: Val)

  datatype Snapshot = Snapshot(power: bool, volume: Val, mute: Val, channel: Channel, program: Program)

  /** The channel a status frame without a current channel installs. */
  const NoChannel: Channel := Channel(Null, Number(0), Null)
  /** The program a status frame without a current program installs. */
  const NoProgram: Program := Program(Null, Null)
  /** The snapshot the client starts with. */
  const InitialPlayerInfo: Snapshot := Snapshot(false, Number(0), Bool(false), NoChannel, NoProgram)

  /** No leaf of the snapshot is NaN. */
  predicate NaNFree(s: Snapshot) {
    s.volume != NaN && s.mute != NaN
    && s.channel.name != NaN && s.channel.number != NaN && s.channel.category != NaN
    && s.program.name != NaN && s.program.category != NaN
  }

  /** Every leaf of the snapshot is `===` to itself: no NaN and no object or array. */
  predicate Scalar(s: Snapshot) {
    SelfIdentical(s.volume) && SelfIdentical(s.mute)
    && SelfIdentical(s.channel.name) && SelfIdentical(s.channel.number) && SelfIdentical(s.channel.category)
    && SelfIdentical(s.program.name) && SelfIdentical(s.program.category)
  }

  /** The deep copy `JSON.parse(JSON.stringify(playerInfo))` the decoder starts from. */
  function Clone(s: Snapshot): (c: Snapshot)
    ensures NaNFree(c)
    ensures NaNFree(s) ==> c == s
    ensures c.power == s.power
  {
    Snapshot(s.power, CloneLeaf(s.volume), CloneLeaf(s.mute),
             Channel(CloneLeaf(s.channel.name), CloneLeaf(s.channel.number), CloneLeaf(s.channel.category)),
             Program(CloneLeaf(s.program.name), CloneLeaf(s.program.category)))
  }

  /** What decoding one frame yields: the next snapshot, and whether it asked for a status poll. */
  datatype Decoded = Decoded(info: Snapshot, requestsStatus: bool)

  /** `obj.hasOwnProperty(key) ? obj[key] : fallback`, the leaf copied as it is. */
  function LeafOr(obj: Json, key: string, fallback: Val): Val
    requires !ThrowsOnMethodCall(obj) && !IsIndexLikeKey(key)
  {
    if HasOwn(obj, key) then FromJson(obj.fields[key]) else fallback
  }

  /** `obj.hasOwnProperty(key) ? parseInt(obj[key]) : fallback`; `None` when `parseInt` throws. */
  function IntLeafOr(obj: Json, key: string, fallback: Val): Option<Val>
    requires !ThrowsOnMethodCall(obj) && !IsIndexLikeKey(key)
  {
    if HasOwn(obj, key) then ParseInt(obj.fields[key]) else Some(fallback)
  }

  /** The channel described by a `CurrentChannel` object: each missing leaf takes its own default. */
  function ReadChannel(current: Json): (r: Option<Channel>)
  {
    if ThrowsOnMethodCall(current) then None
    else
      var number :- IntLeafOr(current, "Id", Number(0));
      Some(Channel(LeafOr(current, "Name", Null), number, LeafOr(current, "Category", Null)))
  }

  /** The program described by a `CurrentProgram` object: each missing leaf is null. */
  function ReadProgram(current: Json): (r: Option<Program>)
  {
    if ThrowsOnMethodCall(current) then None
    else Some(Program(LeafOr(current, "Name", Null), LeafOr(current, "Category", Null)))
  }

  /** `data.LiveSession.LiveItem`, when the status data carries one; `data` itself is known not to throw. */
  function LiveItem(data: Json): (r: Option<Option<Json>>)
    requires !ThrowsOnMethodCall(data)
  {
    if !HasOwn(data, "LiveSession") then Some(None)
    else
      var session := data.fields["LiveSession"];
      if ThrowsOnMethodCall(session) then None
      else Some(if HasOwn(session, "LiveItem") then Some(session.fields["LiveItem"]) else None)
  }

  /** The `GetSessionsStatus` response: power from the application, channel and program replaced or reset. */
  function SessionsStatus(base: Snapshot, data: Json): (r: Option<Snapshot>)
  {
    if ThrowsOnMethodCall(data) then None
    else
      var power := if HasOwn(data, "CurrentApplication")
                   then data.fields["CurrentApplication"] != JString(StandbyApplication)
                   else base.power;
      var item :- LiveItem(data);
      if item.None? then
        Some(base.(power := power, channel := NoChannel, program := NoProgram))
      else if ThrowsOnMethodCall(item.value) then None
      else
        var channel :- if HasOwn(item.value, "CurrentChannel") then ReadChannel(item.value.fields["CurrentChannel"]) else Some(NoChannel);
        var program :- if HasOwn(item.value, "CurrentProgram") then ReadProgram(item.value.fields["CurrentProgram"]) else Some(NoProgram);
        Some(base.(power := power, channel := channel, program := program))
  }

  /** The `GetVolume` response: volume and mute, each only when its key is present. */
  function Volume(base: Snapshot, data: Json): (r: Option<Snapshot>)
  {
    if ThrowsOnMethodCall(data) then None
    else
      var volume :- IntLeafOr(data, "CurrentLevel", base.volume);
      Some(base.(volume := volume, mute := LeafOr(data, "IsMute", base.mute)))
  }

  /** The `VolumeChanged` notification: a new level also clears mute. */
  function VolumeChanged(base: Snapshot, params: Json): (r: Option<Snapshot>)
  {
    if ThrowsOnMethodCall(params) then None
    else if HasOwn(params, "Level") then
      var level :- ParseInt(params.fields["Level"]);
      Some(base.(volume := level, mute := Bool(false)))
    else Some(base)
  }

  /** The `Mute` notification: mute takes the `State` value when present. */
  function MuteChanged(base: Snapshot, params: Json): (r: Option<Snapshot>)
  {
    if ThrowsOnMethodCall(params) then None
    else Some(base.(mute := LeafOr(params, "State", base.mute)))
  }

  /** A frame received on the command socket: dispatch on `Action`, with `Data` as payload. */
  function DecodeCommand(base: Snapshot, frame: Json): (r: Option<Snapshot>)
  {
    if ThrowsOnMethodCall(frame) then None
    else if !HasOwn(frame, "Action") || !HasOwn(frame, "Data") then Some(base)
    else
      var action := frame.fields["Action"];
      var data := frame.fields["Data"];
      if action == JString("GetSessionsStatus") then SessionsStatus(base, data)
      else if action == JString("GetVolume") then Volume(base, data)
      else if action == JString("ButtonEvent") then Some(base)
      // any other action is concatenated into a log message, which converts it to a string
      else if ThrowsOnToString(action) then None
      else Some(base)
  }

  /**
   * A frame received on the notification socket: dispatch on `Notification`,
   * with `Params` as payload; a `StatusUpdate` without parameters asks for a poll.
   */
  function DecodeNotification(base: Snapshot, frame: Json): (r: Option<Decoded>)
  {
    if ThrowsOnMethodCall(frame) then None
    else if !HasOwn(frame, "Notification") then Some(Decoded(base, false))
    else
      var action := frame.fields["Notification"];
      if HasOwn(frame, "Params") then
        var params := frame.fields["Params"];
        // an unknown notification is concatenated into a log message, which converts it to a string
        var info :- if action == JString("VolumeChanged") then VolumeChanged(base, params)
                    else if action == JString("Mute") then MuteChanged(base, params)
                    else if ThrowsOnToString(action) then None
                    else Some(base);
        Some(Decoded(info, false))
      else
        Some(Decoded(base, action == JString("StatusUpdate")))
  }

  /**
   * `getPlayerInfoFromMessage(port, message)` against the current snapshot.
   * `message` is the parsed frame, `None` when it is not JSON; `None` as a
   * result is the exception the function catches and turns into `undefined`.
   */
  function Decode(current: Snapshot, port: int, message: Option<Json>): (r: Option<Decoded>)
    ensures message.None? ==> r.None?
    ensures r.Some? && r.value.requestsStatus ==> port != CommandWsPort && r.value.info == Clone(current)
  {
    var frame :- message;
    var base := Clone(current);
    if port == CommandWsPort then
      var info :- DecodeCommand(base, frame);
      Some(Decoded(info, false))
    else
      DecodeNotification(base, frame)
  }
}
