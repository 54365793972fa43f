/** What the console's handlers promise, stated over the pure transitions of
    module Engine: the routing of topics, the bootstrap-once echo rule, the
    slider, the guarded optimistic commit, the telemetry cases, and what holds
    over any stream of events. */
module Properties {
  import opened Wrappers
  import opened Topics
  import opened Telemetry
  import opened Engine

  // ---------------------------------------------------------------------
  // Routing

  /** A path is routed to a channel's echo exactly when it is `set/` followed
      by the channel's name. */
  lemma RouteEchoIff(path: string, c: Channel)
    ensures RouteOf(path) == EchoRoute(c) <==> path == "set/" + Name(c)
  {
    match c
    case Temp =>
    case Ph =>
      assert "set/ph"[1] != "status"[1];
    case Rpm =>
  }

  /** A command the console publishes comes back, through its own
      subscription to the root, as an echo of the same channel. */
  lemma CommandTopicRoutesBack(c: Channel)
    ensures RouteOf(StripRoot(CommandTopic(c))) == EchoRoute(c)
  {
    assert CommandTopic(c) == RootPrefix + ("set/" + Name(c));
    StripRootOfRooted("set/" + Name(c));
    RouteEchoIff("set/" + Name(c), c);
  }

  // ---------------------------------------------------------------------
  // Echoes: the bootstrap-once rule

  /** At mount every channel is waiting for its first echo, and since the
      defaults of the two setpoint records agree no commit button is enabled. */
  lemma InitialState(c: Channel)
    ensures PhaseOf(Initial(), c) == Bootstrap
    ensures !IsDirty(Initial().localSetpoints[c], Initial().remoteSetpoints[c])
    ensures !ButtonEnabled(Initial(), c)
  {
    match c
    case Temp =>
    case Ph =>
    case Rpm =>
  }

  /** An echo on `bio/v1/set/<channel>` records the arrival time and applies
      `syncInitial` to that channel with the parsed value. */
  lemma EchoMessage(s: Console, c: Channel, p: Payload, clock: Clock)
    requires Inv(s)
    ensures OnMessage(s, RootPrefix + "set/" + Name(c), p, clock)
         == SyncInitial(s.(lastUpdate := Some(clock.instant)), c, EchoValue(c, p))
  {
    assert RootPrefix + "set/" + Name(c) == RootPrefix + ("set/" + Name(c));
    StripRootOfRooted("set/" + Name(c));
    RouteEchoIff("set/" + Name(c), c);
  }

  /** Every echo, first or not, sets the remote setpoint to the echoed value
      and leaves the channel's flag set. */
  lemma EchoSetsRemote(s: Console, c: Channel, v: real)
    requires Inv(s)
    ensures SyncInitial(s, c, v).remoteSetpoints[c] == v
    ensures SyncInitial(s, c, v).initialLoad[c]
  {
  }

  /** The first echo of a channel also becomes its pending value, so the
      channel leaves the bootstrap phase synced. */
  lemma FirstEchoAdopts(s: Console, c: Channel, v: real)
    requires Inv(s) && !s.initialLoad[c]
    ensures SyncInitial(s, c, v).localSetpoints[c] == v
    ensures PhaseOf(s, c) == Bootstrap && PhaseOf(SyncInitial(s, c, v), c) == Synced
  {
  }

  /** A later echo never touches the pending value; the channel is synced
      afterwards exactly when the echo agrees with the pending value. */
  lemma LaterEchoKeepsPending(s: Console, c: Channel, v: real)
    requires Inv(s) && s.initialLoad[c]
    ensures SyncInitial(s, c, v).localSetpoints == s.localSetpoints
    ensures SyncInitial(s, c, v).initialLoad == s.initialLoad
    ensures PhaseOf(SyncInitial(s, c, v), c) == if v == s.localSetpoints[c] then Synced else Dirty
  {
  }

  /** An echo changes nothing of the other channels and nothing but the
      setpoint records and flags. */
  lemma EchoLeavesOthers(s: Console, c: Channel, v: real, d: Channel)
    requires Inv(s) && d != c
    ensures SyncInitial(s, c, v).remoteSetpoints[d] == s.remoteSetpoints[d]
    ensures SyncInitial(s, c, v).localSetpoints[d] == s.localSetpoints[d]
    ensures SyncInitial(s, c, v).initialLoad[d] == s.initialLoad[d]
    ensures SyncInitial(s, c, v).(remoteSetpoints := s.remoteSetpoints,
                                  localSetpoints := s.localSetpoints,
                                  initialLoad := s.initialLoad) == s
  {
  }

  // ---------------------------------------------------------------------
  // The slider

  /** Moving a slider changes that channel's pending value and nothing else;
      the channel becomes dirty exactly when the new value differs from the
      remote setpoint. Nothing requires a connection. */
  lemma SliderOnlyMovesPending(s: Console, c: Channel, v: real, d: Channel)
    requires Inv(s)
    ensures SliderChange(s, c, v).localSetpoints[c] == v
    ensures d != c ==> SliderChange(s, c, v).localSetpoints[d] == s.localSetpoints[d]
    ensures SliderChange(s, c, v).(localSetpoints := s.localSetpoints) == s
    ensures IsDirty(SliderChange(s, c, v).localSetpoints[c], SliderChange(s, c, v).remoteSetpoints[c])
        <==> v != s.remoteSetpoints[c]
  {
  }

  // ---------------------------------------------------------------------
  // Commit

  /** Without a client, or with a status other than 'Connected' (including
      'Offline' and 'Disconnected'), a commit publishes nothing and changes
      nothing. */
  lemma CommitWhenNotConnected(s: Console, c: Channel)
    requires Inv(s) && (!s.hasClient || s.status != Connected)
    ensures Commit(s, c) == s
  {
  }

  /** A connected commit publishes exactly one retained qos-1 command on
      `bio/v1/set/<channel>` carrying the pending value, then takes that value
      as the remote setpoint: the channel is no longer dirty and nothing else
      changes. */
  lemma CommitWhenConnected(s: Console, c: Channel, d: Channel)
    requires Inv(s) && s.hasClient && s.status == Connected
    ensures Commit(s, c).published
         == s.published + [Command(RootPrefix + "set/" + Name(c), s.localSetpoints[c], 1, true)]
    ensures Commit(s, c).remoteSetpoints[c] == s.localSetpoints[c]
    ensures !IsDirty(Commit(s, c).localSetpoints[c], Commit(s, c).remoteSetpoints[c])
    ensures d != c ==> Commit(s, c).remoteSetpoints[d] == s.remoteSetpoints[d]
    ensures Commit(s, c).(published := s.published, remoteSetpoints := s.remoteSetpoints) == s
  {
    assert CommandTopic(c) == RootPrefix + "set/" + Name(c);
  }

  /** The commit itself does not look at dirtiness: a connected commit of a
      synced channel still publishes. Only the button refuses. */
  lemma CommitIgnoresDirtiness(s: Console, c: Channel)
    requires Inv(s) && CanPublish(s) && !IsDirty(s.localSetpoints[c], s.remoteSetpoints[c])
    ensures |Commit(s, c).published| == |s.published| + 1
    ensures !ButtonEnabled(s, c)
  {
  }

  /** Pressing an enabled button (with the client present) publishes exactly
      once and disables the button for that channel. */
  lemma EnabledButtonCommits(s: Console, c: Channel)
    requires Inv(s) && ButtonEnabled(s, c) && s.hasClient
    ensures |Commit(s, c).published| == |s.published| + 1
    ensures !ButtonEnabled(Commit(s, c), c)
  {
  }

  // ---------------------------------------------------------------------
  // Telemetry and status

  /** A telemetry message whose payload parses records the arrival time and
      accepts the parsed record. */
  lemma TelemetryMessage(s: Console, p: Payload, clock: Clock, data: Record)
    requires Inv(s) && p.asJson == Some(data)
    ensures OnMessage(s, RootPrefix + "telemetry", p, clock)
         == AcceptTelemetry(s.(lastUpdate := Some(clock.instant)), data, clock.timeOfDay)
  {
    StripRootOfRooted("telemetry");
  }

  /** Accepting a record: every property of it overwrites the reading of
      that name, the device state becomes 'Online', and nothing but the
      readings and the trend buffer changes. */
  lemma TelemetryReadings(s: Console, data: Record, now: string)
    requires Inv(s)
    ensures AcceptTelemetry(s, data, now).readings[DeviceStateKey] == Str(OnlineState)
    ensures forall k :: k in data && k != DeviceStateKey ==> AcceptTelemetry(s, data, now).readings[k] == data[k]
    ensures forall k :: k in s.readings && k !in data && k != DeviceStateKey ==> AcceptTelemetry(s, data, now).readings[k] == s.readings[k]
    ensures AcceptTelemetry(s, data, now).(readings := s.readings, graphData := s.graphData) == s
  {
  }

  /** Accepting a record: the trend buffer gains the sample `{time, ...data}`
      at its end and drops its oldest sample only when it was full. */
  lemma TelemetryBuffer(s: Console, data: Record, now: string)
    requires Inv(s)
    ensures var g := AcceptTelemetry(s, data, now).graphData;
      && |g| == Min(|s.graphData| + 1, GraphCapacity)
      && (|s.graphData| < GraphCapacity ==> g == s.graphData + [SampleOf(now, data)])
      && (|s.graphData| == GraphCapacity ==> g == s.graphData[1..] + [SampleOf(now, data)])
  {
    var sample := SampleOf(now, data);
    var g := AppendBounded(s.graphData, sample, GraphCapacity);
    assert g == g[..|g| - 1] + [g[|g| - 1]];
  }

  /** A telemetry payload that does not parse changes nothing but the time of
      the last message. */
  lemma TelemetryMalformed(s: Console, p: Payload, clock: Clock)
    requires Inv(s) && p.asJson.None?
    ensures OnMessage(s, RootPrefix + "telemetry", p, clock) == s.(lastUpdate := Some(clock.instant))
  {
    StripRootOfRooted("telemetry");
  }

  /** A status message sets the device state to the payload text verbatim. */
  lemma StatusMessage(s: Console, p: Payload, clock: Clock)
    requires Inv(s)
    ensures OnMessage(s, RootPrefix + "status", p, clock)
         == s.(lastUpdate := Some(clock.instant), readings := s.readings[DeviceStateKey := Str(p.text)])
  {
    StripRootOfRooted("status");
  }

  /** A topic that matches no case changes nothing but the time of the last
      message. */
  lemma UnknownTopic(s: Console, topic: string, p: Payload, clock: Clock)
    requires Inv(s) && RouteOf(StripRoot(topic)) == NoRoute
    ensures OnMessage(s, topic, p, clock) == s.(lastUpdate := Some(clock.instant))
  {
  }

  // ---------------------------------------------------------------------
  // Over any stream of events

  /** A message never changes the client, the status or the published
      commands, and after a channel's first echo it never changes that
      channel's pending value or clears its flag. */
  lemma MessageFrame(s: Console, topic: string, p: Payload, clock: Clock, c: Channel)
    requires Inv(s)
    ensures var r := OnMessage(s, topic, p, clock);
      && r.hasClient == s.hasClient && r.status == s.status && r.published == s.published
      && (s.initialLoad[c] ==> r.initialLoad[c] && r.localSetpoints[c] == s.localSetpoints[c])
  {
    var s1 := s.(lastUpdate := Some(clock.instant));
    var r := OnMessage(s, topic, p, clock);
    match RouteOf(StripRoot(topic))
    case StatusRoute =>
      assert r == s1.(readings := s1.readings[DeviceStateKey := Str(p.text)]);
    case TelemetryRoute =>
      assert r == s1 || r == AcceptTelemetry(s1, p.asJson.value, clock.timeOfDay);
    case EchoRoute(d) =>
      assert r == SyncInitial(s1, d, EchoValue(d, p));
    case NoRoute =>
      assert r == s1;
  }

  /** One event other than a move of the channel's own slider keeps a
      channel's first-echo flag, and its pending value once that is set. */
  lemma StepKeepsPending(s: Console, e: Event, c: Channel)
    requires Inv(s) && s.initialLoad[c] && !(e.Slide? && e.channel == c)
    ensures Step(s, e).initialLoad[c]
    ensures Step(s, e).localSetpoints[c] == s.localSetpoints[c]
  {
    if e.Message? {
      MessageFrame(s, e.topic, e.payload, e.clock, c);
    }
  }

  /** Once a channel has seen its first echo it never goes back to the
      bootstrap phase. */
  lemma {:induction false} FlagsNeverReset(s: Console, es: seq<Event>, c: Channel)
    requires Inv(s) && s.initialLoad[c]
    ensures Run(s, es).initialLoad[c]
    ensures PhaseOf(Run(s, es), c) != Bootstrap
    decreases |es|
  {
    if es != [] {
      var t := Step(s, es[0]);
      assert t.initialLoad[c] by {
        if es[0].Slide? && es[0].channel == c {
        } else {
          StepKeepsPending(s, es[0], c);
        }
      }
      FlagsNeverReset(t, es[1..], c);
    }
  }

  predicate SlidesChannel(e: Event, c: Channel) {
    e.Slide? && e.channel == c
  }

  /** After the first echo of a channel, its pending value changes only when
      the operator moves its slider: no later echo, telemetry, status,
      connectivity change or commit overwrites it. */
  lemma {:induction false} NoSilentOverwrite(s: Console, es: seq<Event>, c: Channel)
    requires Inv(s) && s.initialLoad[c]
    requires forall i :: 0 <= i < |es| ==> !SlidesChannel(es[i], c)
    ensures Run(s, es).localSetpoints[c] == s.localSetpoints[c]
    decreases |es|
  {
    if es != [] {
      var t := Step(s, es[0]);
      assert t.localSetpoints[c] == s.localSetpoints[c] && t.initialLoad[c] by {
        assert !SlidesChannel(es[0], c);
        StepKeepsPending(s, es[0], c);
      }
      NoSilentOverwrite(t, es[1..], c);
    }
  }

  /** Commands are only ever added to the transport's queue, never removed
      or changed. */
  lemma {:induction false} PublishedOnlyGrows(s: Console, es: seq<Event>)
    requires Inv(s)
    ensures |s.published| <= |Run(s, es).published|
    ensures Run(s, es).published[..|s.published|] == s.published
    decreases |es|
  {
    if es != [] {
      var t := Step(s, es[0]);
      assert t.published[..|s.published|] == s.published by {
        if es[0].Message? {
          MessageFrame(s, es[0].topic, es[0].payload, es[0].clock, Temp);
        }
      }
      PublishedOnlyGrows(t, es[1..]);
    }
  }

  /** While the client is not connected and no 'connect' event arrives,
      nothing is published, whatever the operator does. */
  lemma {:induction false} NothingPublishedOffline(s: Console, es: seq<Event>)
    requires Inv(s) && s.status != Connected
    requires forall i :: 0 <= i < |es| ==> !es[i].ConnectEvent?
    ensures Run(s, es).published == s.published
    decreases |es|
  {
    if es != [] {
      var t := Step(s, es[0]);
      assert t.published == s.published && t.status != Connected by {
        assert !es[0].ConnectEvent?;
        if es[0].Message? {
          MessageFrame(s, es[0].topic, es[0].payload, es[0].clock, Temp);
        }
      }
      NothingPublishedOffline(t, es[1..]);
    }
  }
}
