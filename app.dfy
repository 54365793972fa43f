/** The `App` component's state and handlers, updated in place as the
    component does: each handler is a method that performs the source's
    state writes in order and promises that the new state is the Engine
    transition of the old one. */
module Dashboard {
  import opened Wrappers
  import opened Topics
  import opened Telemetry
  import opened Engine

  class App {
    var hasClient: bool
    var status: string
    var lastUpdate: Option<int>
    var initialLoad: map<Channel, bool>
    var readings: Record
    var remoteSetpoints: map<Channel, real>
    var localSetpoints: map<Channel, real>
    var graphData: seq<Record>
    /** The commands handed to the transport's `publish`, oldest first. */
    var published: seq<Command>

    ghost function Snapshot(): Console
      reads this
    {
      Console(hasClient, status, lastUpdate, initialLoad, readings,
              remoteSetpoints, localSetpoints, graphData, published)
    }

    ghost predicate Valid()
      reads this
    {
      Inv(Snapshot())
    }

    /** The component mounts with its initial state. */
    constructor ()
      ensures Valid() && Snapshot() == Initial()
    {
      var s := Initial();
      hasClient := s.hasClient;
      status := s.status;
      lastUpdate := s.lastUpdate;
      initialLoad := s.initialLoad;
      readings := s.readings;
      remoteSetpoints := s.remoteSetpoints;
      localSetpoints := s.localSetpoints;
      graphData := s.graphData;
      published := s.published;
    }

    /** The connect effect has created the client: `setClient(c)`. */
    method AttachClient()
      requires Valid()
      modifies this
      ensures Valid() && Snapshot() == Engine.AttachClient(old(Snapshot()))
    {
      hasClient := true;
    }

    /** `c.on('connect', ...)`. */
    method OnConnect()
      requires Valid()
      modifies this
      ensures Valid() && Snapshot() == Engine.OnConnect(old(Snapshot()))
    {
      status := Connected;
    }

    /** `c.on('offline', ...)`. */
    method OnOffline()
      requires Valid()
      modifies this
      ensures Valid() && Snapshot() == Engine.OnOffline(old(Snapshot()))
    {
      status := Offline;
    }

    /** The `syncInitial` helper of the message handler. */
    method SyncInitial(key: Channel, value: real)
      requires Valid()
      modifies this
      ensures Valid() && Snapshot() == Engine.SyncInitial(old(Snapshot()), key, value)
    {
      remoteSetpoints := remoteSetpoints[key := value];
      if !initialLoad[key] {
        localSetpoints := localSetpoints[key := value];
        initialLoad := initialLoad[key := true];
      }
    }

    /** The `telemetry` case once `JSON.parse` has succeeded: merge the
        record into the readings and append the sample to the trend buffer. */
    method AcceptTelemetry(data: Record, now: string)
      requires Valid()
      modifies this
      ensures Valid() && Snapshot() == Engine.AcceptTelemetry(old(Snapshot()), data, now)
    {
      readings := MergeTelemetry(readings, data);
      graphData := AppendBounded(graphData, SampleOf(now, data), GraphCapacity);
    }

    /** `c.on('message', ...)`: record the arrival time, remove the root from
        the topic and switch on what is left. */
    method OnMessage(topic: string, message: Payload, clock: Clock)
      requires Valid()
      modifies this
      ensures Valid() && Snapshot() == Engine.OnMessage(old(Snapshot()), topic, message, clock)
    {
      var topicPath := StripRoot(topic);
      lastUpdate := Some(clock.instant);
      ghost var route := RouteOf(topicPath);
      if topicPath == "status" {
        readings := readings[DeviceStateKey := Str(message.text)];
      } else if topicPath == "telemetry" {
        match message.asJson {
          case None =>
          case Some(data) => AcceptTelemetry(data, clock.timeOfDay);
        }
      } else if topicPath == "set/temp" {
        assert route == EchoRoute(Temp);
        SyncInitial(Temp, message.asFloat);
      } else if topicPath == "set/ph" {
        assert route == EchoRoute(Ph);
        SyncInitial(Ph, message.asFloat);
      } else if topicPath == "set/rpm" {
        assert route == EchoRoute(Rpm);
        SyncInitial(Rpm, message.asInt as real);
      } else {
        assert route == NoRoute;
      }
    }

    /** `handleSliderChange(type, value)`. */
    method HandleSliderChange(type_: Channel, value: real)
      requires Valid()
      modifies this
      ensures Valid() && Snapshot() == Engine.SliderChange(old(Snapshot()), type_, value)
    {
      localSetpoints := localSetpoints[type_ := value];
    }

    /** `commitChange(type)`: guarded publish, then the optimistic update. */
    method CommitChange(type_: Channel)
      requires Valid()
      modifies this
      ensures Valid() && Snapshot() == Engine.Commit(old(Snapshot()), type_)
    {
      if !hasClient || status != Connected {
        return;
      }
      var valToSend := localSetpoints[type_];
      published := published + [Command(CommandTopic(type_), valToSend, 1, true)];
      remoteSetpoints := remoteSetpoints[type_ := valToSend];
    }

    /** Whether the commit button of a channel is enabled, as its control
        card renders it. */
    method CommitEnabled(type_: Channel) returns (enabled: bool)
      requires Valid()
      ensures enabled <==> ButtonEnabled(Snapshot(), type_)
      ensures enabled <==> IsDirty(localSetpoints[type_], remoteSetpoints[type_]) && status == Connected
    {
      var isDirty := localSetpoints[type_] != remoteSetpoints[type_];
      var isConnected := status == Connected;
      enabled := !(!isDirty || !isConnected);
    }
  }
}
