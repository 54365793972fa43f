/** Four end-to-end runs of the console from a fresh start. */
module Scenarios {
  import opened Wrappers
  import opened Topics
  import opened Telemetry
  import opened Engine
  import Properties
  import Streams

  /** Connected, the device echoes a temperature setpoint of 36.5; the
      operator slides to 38 and commits. */
  lemma EchoSlideCommit(clock: Clock)
    ensures var s0 := OnConnect(AttachClient(Initial()));
      var s1 := OnMessage(s0, "bio/v1/set/temp", Payload("36.5", 36.5, 36, None), clock);
      var s2 := SliderChange(s1, Temp, 38.0);
      var s3 := Commit(s2, Temp);
      && s1.localSetpoints[Temp] == 36.5 && s1.remoteSetpoints[Temp] == 36.5
      && PhaseOf(s1, Temp) == Synced && !ButtonEnabled(s1, Temp)
      && s2.localSetpoints[Temp] == 38.0 && s2.remoteSetpoints[Temp] == 36.5
      && PhaseOf(s2, Temp) == Dirty && ButtonEnabled(s2, Temp)
      && s3.remoteSetpoints[Temp] == 38.0
      && s3.published == [Command("bio/v1/set/temp", 38.0, 1, true)]
      && PhaseOf(s3, Temp) == Synced && !ButtonEnabled(s3, Temp)
  {
    var s0 := OnConnect(AttachClient(Initial()));
    assert "bio/v1/set/temp" == RootPrefix + "set/" + Name(Temp);
    Properties.EchoMessage(s0, Temp, Payload("36.5", 36.5, 36, None), clock);
    var s1 := OnMessage(s0, "bio/v1/set/temp", Payload("36.5", 36.5, 36, None), clock);
    var s2 := SliderChange(s1, Temp, 38.0);
    Properties.CommitWhenConnected(s2, Temp, Temp);
  }

  /** Telemetry reporting temperature and pH only, into an empty trend
      buffer (as at mount): both readings are taken, the device is online,
      and the one new sample has no agitation key. */
  lemma PartialTelemetry(s: Console, clock: Clock)
    requires Inv(s) && s.graphData == []
    ensures var data := map["temp" := Num(37.2), "ph" := Num(6.8)];
      var r := OnMessage(s, "bio/v1/telemetry", Payload("{...}", 0.0, 0, Some(data)), clock);
      && "temp" in r.readings && r.readings["temp"] == Num(37.2)
      && "ph" in r.readings && r.readings["ph"] == Num(6.8)
      && DeviceStateKey in r.readings && r.readings[DeviceStateKey] == Str(OnlineState)
      && |r.graphData| == 1
      && "temp" in r.graphData[0] && "ph" in r.graphData[0] && "rpm" !in r.graphData[0]
  {
    var data := map["temp" := Num(37.2), "ph" := Num(6.8)];
    var p := Payload("{...}", 0.0, 0, Some(data));
    var s0 := s.(lastUpdate := Some(clock.instant));
    var r := AcceptTelemetry(s0, data, clock.timeOfDay);
    assert OnMessage(s, "bio/v1/telemetry", p, clock) == r by {
      assert "bio/v1/telemetry" == RootPrefix + "telemetry";
      Properties.TelemetryMessage(s, p, clock, data);
    }
    assert r.readings["temp"] == Num(37.2) && r.readings["ph"] == Num(6.8)
        && r.readings[DeviceStateKey] == Str(OnlineState) by {
      assert "temp" != DeviceStateKey && "ph" != DeviceStateKey;
      Properties.TelemetryReadings(s0, data, clock.timeOfDay);
    }
    assert r.graphData == [SampleOf(clock.timeOfDay, data)] by {
      Properties.TelemetryBuffer(s0, data, clock.timeOfDay);
    }
    assert "rpm" !in SampleOf(clock.timeOfDay, data) by {
      assert "rpm" != TimeKey && "rpm" !in data;
    }
  }

  /** A commit before any connection publishes nothing and changes nothing. */
  lemma CommitWhileDisconnected(c: Channel)
    ensures Commit(Initial(), c) == Initial()
    ensures Commit(AttachClient(Initial()), c) == AttachClient(Initial())
    ensures Commit(OnOffline(OnConnect(AttachClient(Initial()))), c) == OnOffline(OnConnect(AttachClient(Initial())))
  {
  }

  /** 105 telemetry messages into the 100-sample buffer: the buffer holds the
      samples of messages 6 to 105. */
  lemma HundredAndFiveSamples(es: seq<Event>)
    requires |es| == 105
    requires forall i :: 0 <= i < |es| ==> Streams.ValidTelemetry(es[i])
    ensures |Run(Initial(), es).graphData| == 100
    ensures Run(Initial(), es).graphData == Streams.Samples(es)[5..]
  {
    Streams.TelemetryStreamFromEmpty(Initial(), es);
  }
}
