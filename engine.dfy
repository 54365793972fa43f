/** The console's state and its handlers as pure transitions.

    `Console` holds everything the `App` component keeps between events: the
    client handle (present or not), the connectivity status, the time of the
    last message, the one-shot "first echo seen" flag per channel, the
    readings, the setpoint the device is believed to hold (remote) and the
    slider's pending value (local) per channel, the trend buffer, and the
    commands handed to the transport. Each handler is a function from the old
    state to the new one; the class in app.dfy performs the same updates
    in place. */
module Engine {
  import opened Wrappers
  import opened Topics
  import opened Telemetry

  /** The three controlled quantities: temperature, pH and agitation. */
  datatype Channel = Temp | Ph | Rpm

  /** The key of a channel in the setpoint records and in topics. */
  function Name(c: Channel): string {
    match c
    case Temp => "temp"
    case Ph => "ph"
    case Rpm => "rpm"
  }

  const Disconnected: string := "Disconnected"
  const Connected: string := "Connected"
  const Offline: string := "Offline"

  /** A message payload together with what the console's parsers make of
      its text: `parseFloat`, `parseInt` and `JSON.parse` (None when it
      throws). The parsers themselves are not modelled. */
  datatype Payload = Payload(text: string, asFloat: real, asInt: int, asJson: Option<Record>)

  /** The wall clock at a message: `new Date()` and its `toLocaleTimeString()`. */
  datatype Clock = Clock(instant: int, timeOfDay: string)

  /** One publish handed to the transport; the payload text is the number's
      `toString()`, kept here as the number itself. */
  datatype Command = Command(topic: string, payload: real, qos: nat, retain: bool)

  datatype Console = Console(
    hasClient: bool,
    status: string,
    lastUpdate: Option<int>,
    initialLoad: map<Channel, bool>,
    readings: Record,
    remoteSetpoints: map<Channel, real>,
    localSetpoints: map<Channel, real>,
    graphData: seq<Record>,
    published: seq<Command>)

  ghost predicate Total<V>(m: map<Channel, V>) {
    forall c: Channel :: c in m
  }

  lemma TotalOfThree<V>(m: map<Channel, V>)
    requires Temp in m && Ph in m && Rpm in m
    ensures Total(m)
  {
    forall c: Channel
      ensures c in m
    {
      match c
      case Temp =>
      case Ph =>
      case Rpm =>
    }
  }

  /** What every reachable state satisfies: each per-channel record has all
      three channels, the trend buffer is within capacity, and the device
      state is a string reading. */
  ghost predicate Inv(s: Console) {
    && Total(s.initialLoad)
    && Total(s.remoteSetpoints)
    && Total(s.localSetpoints)
    && |s.graphData| <= GraphCapacity
    && DeviceStateKey in s.readings
    && s.readings[DeviceStateKey].Str?
  }

  /** The state when the component mounts. */
  function Initial(): (s: Console)
    ensures Inv(s)
    ensures s.status == Disconnected && !s.hasClient && s.graphData == [] && s.published == []
  {
    var flags := map[Temp := false, Ph := false, Rpm := false];
    var setpoints := map[Temp := 37.0, Ph := 7.0, Rpm := 100.0];
    TotalOfThree(flags);
    TotalOfThree(setpoints);
    Console(
      false,
      Disconnected,
      None,
      flags,
      map["temp" := Num(0.0), "ph" := Num(0.0), "rpm" := Num(0.0), DeviceStateKey := Str("Unknown")],
      setpoints,
      setpoints,
      [],
      [])
  }

  // ---------------------------------------------------------------------
  // Message routing

  /** The cases of the message switch. */
  datatype Route = StatusRoute | TelemetryRoute | EchoRoute(channel: Channel) | NoRoute

  /** The switch on the topic path; any other path matches no case. */
  function RouteOf(path: string): (r: Route)
    ensures r == StatusRoute <==> path == "status"
    ensures r == TelemetryRoute <==> path == "telemetry"
    ensures forall c :: r == EchoRoute(c) <==> path == "set/" + Name(c)
  {
    assert ("set/" + Name(Ph))[1] != "status"[1];
    if path == "status" then StatusRoute
    else if path == "telemetry" then TelemetryRoute
    else if path == "set/temp" then EchoRoute(Temp)
    else if path == "set/ph" then EchoRoute(Ph)
    else if path == "set/rpm" then EchoRoute(Rpm)
    else NoRoute
  }

  /** The value an echo carries: `parseFloat` for temperature and pH,
      `parseInt` for agitation. */
  function EchoValue(c: Channel, p: Payload): (v: real)
    ensures c == Rpm ==> v.Floor == p.asInt && v.Floor as real == v
    ensures c != Rpm ==> v == p.asFloat
  {
    if c == Rpm then p.asInt as real else p.asFloat
  }

  // ---------------------------------------------------------------------
  // Handlers

  /** `syncInitial(key, value)`: the echoed value always becomes the remote
      setpoint; the first echo of a channel also becomes its pending value
      and sets the channel's flag. */
  function SyncInitial(s: Console, c: Channel, v: real): (r: Console)
    requires Inv(s)
    ensures Inv(r)
  {
    var s := s.(remoteSetpoints := s.remoteSetpoints[c := v]);
    if !s.initialLoad[c] then
      s.(localSetpoints := s.localSetpoints[c := v], initialLoad := s.initialLoad[c := true])
    else
      s
  }

  /** A valid telemetry record: merged into the readings and appended, with
      its arrival time, to the trend buffer. */
  function AcceptTelemetry(s: Console, data: Record, now: string): (r: Console)
    requires Inv(s)
    ensures Inv(r)
  {
    s.(readings := MergeTelemetry(s.readings, data),
       graphData := AppendBounded(s.graphData, SampleOf(now, data), GraphCapacity))
  }

  /** The 'message' handler: every message records its arrival time, then
      the topic path (the topic with the root removed) selects a case. */
  function OnMessage(s: Console, topic: string, p: Payload, clock: Clock): (r: Console)
    requires Inv(s)
    ensures Inv(r)
  {
    var s := s.(lastUpdate := Some(clock.instant));
    match RouteOf(StripRoot(topic))
    case StatusRoute => s.(readings := s.readings[DeviceStateKey := Str(p.text)])
    case TelemetryRoute =>
      (match p.asJson
       case None => s
       case Some(data) => AcceptTelemetry(s, data, clock.timeOfDay))
    case EchoRoute(c) => SyncInitial(s, c, EchoValue(c, p))
    case NoRoute => s
  }

  /** `handleSliderChange(type, value)`: only the pending value moves. */
  function SliderChange(s: Console, c: Channel, v: real): (r: Console)
    requires Inv(s)
    ensures Inv(r)
  {
    s.(localSetpoints := s.localSetpoints[c := v])
  }

  /** The topic a commit publishes on: `${TOPIC_ROOT}/set/${type}`. */
  function CommandTopic(c: Channel): (topic: string)
    ensures |RootPrefix| <= |topic| && topic[..|RootPrefix|] == RootPrefix
    ensures StripRoot(topic) == "set/" + Name(c)
  {
    assert TopicRoot + "/set/" + Name(c) == RootPrefix + ("set/" + Name(c));
    StripRootOfRooted("set/" + Name(c));
    TopicRoot + "/set/" + Name(c)
  }

  /** The guard of `commitChange`: a client exists and the status is 'Connected'. */
  predicate CanPublish(s: Console) {
    s.hasClient && s.status == Connected
  }

  /** `commitChange(type)`: when the guard holds, publish the pending value
      (qos 1, retained) and optimistically take it as the remote setpoint;
      otherwise do nothing. Whether the channel is dirty is not checked. */
  function Commit(s: Console, c: Channel): (r: Console)
    requires Inv(s)
    ensures Inv(r)
  {
    if !CanPublish(s) then s
    else
      var valToSend := s.localSetpoints[c];
      s.(published := s.published + [Command(CommandTopic(c), valToSend, 1, true)],
         remoteSetpoints := s.remoteSetpoints[c := valToSend])
  }

  /** `setClient(c)` once the connect effect has created the client. */
  function AttachClient(s: Console): (r: Console)
    requires Inv(s)
    ensures Inv(r)
  {
    s.(hasClient := true)
  }

  /** The client's 'connect' event. */
  function OnConnect(s: Console): (r: Console)
    requires Inv(s)
    ensures Inv(r)
  {
    s.(status := Connected)
  }

  /** The client's 'offline' event. */
  function OnOffline(s: Console): (r: Console)
    requires Inv(s)
    ensures Inv(r)
  {
    s.(status := Offline)
  }

  // ---------------------------------------------------------------------
  // What a control card shows

  /** `isDirty`: the pending value differs from the remote setpoint. */
  function IsDirty(localValue: real, remoteValue: real): (dirty: bool)
    ensures !dirty <==> localValue == remoteValue
  {
    localValue != remoteValue
  }

  /** The commit button: `disabled={!isDirty || !isConnected}` with
      `isConnected = status === 'Connected'`. */
  function ButtonEnabled(s: Console, c: Channel): (enabled: bool)
    requires Inv(s)
    ensures enabled <==> IsDirty(s.localSetpoints[c], s.remoteSetpoints[c]) && s.status == Connected
  {
    !(!IsDirty(s.localSetpoints[c], s.remoteSetpoints[c]) || !(s.status == Connected))
  }

  /** The per-channel state of the reconciliation: before the first echo,
      pending equal to remote, or pending different from remote. */
  datatype Phase = Bootstrap | Synced | Dirty

  function PhaseOf(s: Console, c: Channel): Phase
    requires Inv(s)
  {
    if !s.initialLoad[c] then Bootstrap
    else if IsDirty(s.localSetpoints[c], s.remoteSetpoints[c]) then Dirty
    else Synced
  }

  // ---------------------------------------------------------------------
  // Event streams

  /** Everything that reaches the console, one at a time and in order. */
  datatype Event =
    | ClientCreated
    | ConnectEvent
    | OfflineEvent
    | Message(topic: string, payload: Payload, clock: Clock)
    | Slide(channel: Channel, value: real)
    | CommitPressed(channel: Channel)

  function Step(s: Console, e: Event): (r: Console)
    requires Inv(s)
    ensures Inv(r)
  {
    match e
    case ClientCreated => AttachClient(s)
    case ConnectEvent => OnConnect(s)
    case OfflineEvent => OnOffline(s)
    case Message(topic, p, clock) => OnMessage(s, topic, p, clock)
    case Slide(c, v) => SliderChange(s, c, v)
    case CommitPressed(c) => Commit(s, c)
  }

  /** The state after the events `es`, applied from the first. */
  function Run(s: Console, es: seq<Event>): (r: Console)
    requires Inv(s)
    ensures Inv(r)
    decreases |es|
  {
    if es == [] then s else Run(Step(s, es[0]), es[1..])
  }
}
