/** Streams of events: appending one event to a stream, and the trend buffer
    after a stream of valid telemetry messages. */
module Streams {
  import opened Topics
  import opened Telemetry
  import opened Engine
  import opened Properties

  /** Processing a stream and then one more event is processing the longer
      stream. */
  lemma {:induction false} RunSnoc(s: Console, es: seq<Event>, e: Event)
    requires Inv(s)
    ensures Run(s, es + [e]) == Step(Run(s, es), e)
    decreases |es|
  {
    if es == [] {
      assert [] + [e] == [e];
      assert [e][1..] == [];
    } else {
      assert (es + [e])[0] == es[0];
      assert (es + [e])[1..] == es[1..] + [e];
      RunSnoc(Step(s, es[0]), es[1..], e);
    }
  }

  /** A telemetry message under the root whose payload parses. */
  predicate ValidTelemetry(e: Event) {
    e.Message? && e.topic == RootPrefix + "telemetry" && e.payload.asJson.Some?
  }

  /** The sample such a message appends: `{ time: now, ...data }`. */
  function SampleOfEvent(e: Event): Record
    requires ValidTelemetry(e)
  {
    SampleOf(e.clock.timeOfDay, e.payload.asJson.value)
  }

  function Samples(es: seq<Event>): (r: seq<Record>)
    requires forall i :: 0 <= i < |es| ==> ValidTelemetry(es[i])
    ensures |r| == |es|
    ensures forall i :: 0 <= i < |es| ==> r[i] == SampleOfEvent(es[i])
  {
    seq(|es|, i requires 0 <= i < |es| => SampleOfEvent(es[i]))
  }

  /** One valid telemetry message appends its sample to the trend buffer. */
  lemma TelemetryStep(s: Console, e: Event)
    requires Inv(s) && ValidTelemetry(e)
    ensures Step(s, e).graphData == AppendBounded(s.graphData, SampleOfEvent(e), GraphCapacity)
  {
    TelemetryMessage(s, e.payload, e.clock, e.payload.asJson.value);
  }

  /** After a stream of valid telemetry messages the trend buffer is the old
      buffer with the messages' samples appended one by one, in arrival
      order, each append evicting the oldest sample once the buffer is full. */
  lemma {:induction false} TelemetryStream(s: Console, es: seq<Event>)
    requires Inv(s)
    requires forall i :: 0 <= i < |es| ==> ValidTelemetry(es[i])
    ensures Run(s, es).graphData == AppendAll(s.graphData, Samples(es), GraphCapacity)
    decreases |es|
  {
    if es == [] {
      assert Samples(es) == [];
    } else {
      var init, last := es[..|es| - 1], es[|es| - 1];
      var samples := Samples(es);
      assert es == init + [last];
      assert samples[..|es| - 1] == Samples(init);
      var before := Run(s, init);
      calc {
        Run(s, es).graphData;
        { RunSnoc(s, init, last); }
        Step(before, last).graphData;
        { TelemetryStep(before, last); }
        AppendBounded(before.graphData, SampleOfEvent(last), GraphCapacity);
        { TelemetryStream(s, init); }
        AppendBounded(AppendAll(s.graphData, Samples(init), GraphCapacity), samples[|es| - 1], GraphCapacity);
        AppendAll(s.graphData, samples, GraphCapacity);
      }
    }
  }

  /** From an empty buffer, a stream of valid telemetry messages leaves the
      samples of the last `min(n, 100)` of them, oldest first. */
  lemma TelemetryStreamFromEmpty(s: Console, es: seq<Event>)
    requires Inv(s) && s.graphData == []
    requires forall i :: 0 <= i < |es| ==> ValidTelemetry(es[i])
    ensures |Run(s, es).graphData| == Min(|es|, GraphCapacity)
    ensures Run(s, es).graphData == Samples(es)[|es| - Min(|es|, GraphCapacity)..]
  {
    TelemetryStream(s, es);
    AppendAllFromEmpty(Samples(es), GraphCapacity);
  }
}
