/** Telemetry records and the bounded sample buffer behind the trend charts.

    A record is what the spread `{...data}` of a parsed telemetry payload
    contributes: a map from property name to value. The buffer update is
    `[...prev, sample].slice(-100)`. */
module Telemetry {

  /** A JSON value as far as the console tells values apart: numbers and
      strings; booleans, null, arrays and objects are not distinguished. */
  datatype Value = Num(x: real) | Str(s: string) | OtherJson

  type Record = map<string, Value>

  /** The number of samples the trend buffer keeps. */
  const GraphCapacity: nat := 100

  const TimeKey: string := "time"
  const DeviceStateKey: string := "deviceState"
  const OnlineState: string := "Online"

  function Min(a: int, b: int): int {
    if a < b then a else b
  }

  /** `s.slice(-k)` for a positive `k`: the last `k` elements of `s`, or all
      of them when there are fewer. (JavaScript reads `slice(-0)` as
      `slice(0)`, the whole array; the console only uses `k = 100`.) */
  function SliceLast<T>(s: seq<T>, k: nat): (r: seq<T>)
    requires 0 < k
    ensures |r| == Min(|s|, k)
    ensures forall i :: 0 <= i < |r| ==> r[i] == s[|s| - |r| + i]
  {
    if |s| <= k then s else s[|s| - k..]
  }

  /** The trend-buffer update: the new sample goes at the end and, once the
      buffer is full, the oldest sample is evicted. */
  function AppendBounded<T>(buf: seq<T>, x: T, cap: nat): (r: seq<T>)
    requires 0 < cap
    ensures |r| == Min(|buf| + 1, cap)
    ensures r[|r| - 1] == x
    ensures r[..|r| - 1] == buf[|buf| - (|r| - 1)..]
  {
    var r := SliceLast(buf + [x], cap);
    assert r[..|r| - 1] == buf[|buf| - (|r| - 1)..];
    r
  }

  /** The buffer after the samples `xs` arrive one by one, in order. */
  function AppendAll<T>(buf: seq<T>, xs: seq<T>, cap: nat): seq<T>
    requires 0 < cap
  {
    if xs == [] then buf
    else AppendBounded(AppendAll(buf, xs[..|xs| - 1], cap), xs[|xs| - 1], cap)
  }

  /** Trimming before an append does not change what the buffer ends with. */
  lemma SliceLastSnoc<T>(s: seq<T>, x: T, cap: nat)
    requires 0 < cap
    ensures SliceLast(SliceLast(s, cap) + [x], cap) == SliceLast(s + [x], cap)
  {
    var lhs := SliceLast(SliceLast(s, cap) + [x], cap);
    var rhs := SliceLast(s + [x], cap);
    assert |lhs| == |rhs|;
    forall i | 0 <= i < |lhs|
      ensures lhs[i] == rhs[i]
    {
      var t := SliceLast(s, cap);
      if i == |lhs| - 1 {
      } else {
        assert lhs[i] == (t + [x])[|t| + 1 - |lhs| + i];
        assert lhs[i] == t[|t| + 1 - |lhs| + i];
      }
    }
  }

  /** Starting from any buffer within capacity, after a run of appends the
      buffer holds exactly the newest `cap` elements of the old contents
      followed by the arrivals, in arrival order. */
  lemma {:induction false} AppendAllKeepsNewest<T>(buf: seq<T>, xs: seq<T>, cap: nat)
    requires 0 < cap && |buf| <= cap
    ensures AppendAll(buf, xs, cap) == SliceLast(buf + xs, cap)
  {
    if xs == [] {
      assert buf + xs == buf;
    } else {
      var init, last := xs[..|xs| - 1], xs[|xs| - 1];
      var before := AppendAll(buf, init, cap);
      assert before == SliceLast(buf + init, cap) by {
        AppendAllKeepsNewest(buf, init, cap);
      }
      assert AppendAll(buf, xs, cap) == SliceLast(before + [last], cap);
      assert SliceLast(before + [last], cap) == SliceLast(buf + init + [last], cap) by {
        SliceLastSnoc(buf + init, last, cap);
      }
      assert buf + init + [last] == buf + xs;
    }
  }

  /** The property the capacity is for: from an empty buffer, `n` arrivals
      leave the last `min(n, cap)` of them, in arrival order. */
  lemma AppendAllFromEmpty<T>(xs: seq<T>, cap: nat)
    requires 0 < cap
    ensures |AppendAll([], xs, cap)| == Min(|xs|, cap)
    ensures AppendAll([], xs, cap) == xs[|xs| - Min(|xs|, cap)..]
  {
    AppendAllKeepsNewest([], xs, cap);
    assert [] + xs == xs;
  }

  /** The sample `{ time: now, ...data }`: the arrival time under "time",
      unless the record itself carries a "time" property, which wins. */
  function SampleOf(now: string, data: Record): (r: Record)
    ensures TimeKey in r
    ensures forall k :: k in data ==> k in r && r[k] == data[k]
    ensures TimeKey !in data ==> r[TimeKey] == Str(now)
    ensures r.Keys == data.Keys + {TimeKey}
  {
    map[TimeKey := Str(now)] + data
  }

  /** `{ ...prev, ...data, deviceState: 'Online' }`: every property of the
      record overwrites the reading of the same name, others are kept, and
      the device state becomes "Online" whatever the record says. */
  function MergeTelemetry(readings: Record, data: Record): (r: Record)
    ensures r.Keys == readings.Keys + data.Keys + {DeviceStateKey}
    ensures r[DeviceStateKey] == Str(OnlineState)
    ensures forall k :: k in data && k != DeviceStateKey ==> r[k] == data[k]
    ensures forall k :: k in readings && k !in data && k != DeviceStateKey ==> r[k] == readings[k]
  {
    (readings + data)[DeviceStateKey := Str(OnlineState)]
  }
}
