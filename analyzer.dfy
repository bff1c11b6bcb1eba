/**
 * The data hand-off core of the compact FFT dashboard: the message callback
 * that counts, decodes and routes every delivered MQTT message into one of four
 * FIFO hand-off queues, and the periodic drain that folds those queues into
 * bounded rolling windows and the shared, strictly increasing timestamp axis.
 *
 * Timestamps are integers supplied by the caller; `json.loads` and `float`
 * are the decoder parameters `parseJson` and `parseFloat`; a failed UTF-8
 * decoding of the payload is a `None` payload.
 */
module FftMqttAnalyzer {
  import opened Wrappers
  import opened RollingWindow
  import opened TimestampAxis

  /** A value produced by `json.loads`; the spectrum records are JSON objects. */
  datatype JsonValue =
    | JNull
    | JBool(b: bool)
    | JNumber(n: real)
    | JString(s: string)
    | JArray(items: seq<JsonValue>)
    | JObject(members: map<string, JsonValue>)

  /** A queued item: a decoded payload and the time its message was delivered. */
  datatype Sample<T> = Sample(value: T, at: int)

  const TemperatureFftTopic := "/temperature/fft"
  const HumidityFftTopic := "/humidity/fft"
  const TemperatureTopic := "/temperature"
  const HumidityTopic := "/humidity"
  const OnlineTopic := "/online"

  /** `maxlen` of the spectrum windows, of the raw windows and of the timestamp axis. */
  const FftCapacity: nat := 50
  const RawCapacity: nat := 100
  const TimestampCapacity: nat := 100

  /** Where a delivered message goes. */
  datatype Routed =
    | TempFft(data: JsonValue)
    | HumidFft(data: JsonValue)
    | TempRaw(reading: real)
    | HumidRaw(reading: real)
    | Malformed   // a routed topic whose payload did not parse: logged and dropped
    | NotQueued   // `/online` and every other topic

  predicate IsFftTopic(topic: string) {
    topic == TemperatureFftTopic || topic == HumidityFftTopic
  }

  predicate IsRawTopic(topic: string) {
    topic == TemperatureTopic || topic == HumidityTopic
  }

  /** The routing decision of the message callback for a payload that decoded as text. */
  function Route(topic: string, text: string,
                 parseJson: string -> Option<JsonValue>, parseFloat: string -> Option<real>): (r: Routed)
    ensures r.NotQueued? <==> !IsFftTopic(topic) && !IsRawTopic(topic)
    ensures r.Malformed? <==> (IsFftTopic(topic) && parseJson(text).None?)
                              || (IsRawTopic(topic) && parseFloat(text).None?)
    ensures r.TempFft? <==> topic == TemperatureFftTopic && parseJson(text).Some?
    ensures r.HumidFft? <==> topic == HumidityFftTopic && parseJson(text).Some?
    ensures r.TempRaw? <==> topic == TemperatureTopic && parseFloat(text).Some?
    ensures r.HumidRaw? <==> topic == HumidityTopic && parseFloat(text).Some?
    ensures (r.TempFft? || r.HumidFft?) ==> parseJson(text) == Some(r.data)
    ensures (r.TempRaw? || r.HumidRaw?) ==> parseFloat(text) == Some(r.reading)
    ensures OnlineTopic == topic ==> r.NotQueued?
  {
    if topic == TemperatureFftTopic then
      match parseJson(text)
      case Some(data) => TempFft(data)
      case None => Malformed
    else if topic == HumidityFftTopic then
      match parseJson(text)
      case Some(data) => HumidFft(data)
      case None => Malformed
    else if topic == TemperatureTopic then
      match parseFloat(text)
      case Some(v) => TempRaw(v)
      case None => Malformed
    else if topic == HumidityTopic then
      match parseFloat(text)
      case Some(v) => HumidRaw(v)
      case None => Malformed
    else NotQueued
  }

  /** The payloads of a queue, in FIFO order. */
  function Values<T>(q: seq<Sample<T>>): seq<T> {
    seq(|q|, i requires 0 <= i < |q| => q[i].value)
  }

  /** The delivery times of a queue, in FIFO order. */
  function Times<T>(q: seq<Sample<T>>): seq<int> {
    seq(|q|, i requires 0 <= i < |q| => q[i].at)
  }

  /** Draining one more queued sample appends its payload to the window. */
  lemma WindowStep<T>(w0: seq<T>, cap: nat, drained: seq<Sample<T>>, item: Sample<T>)
    ensures Last(w0 + Values(drained + [item]), cap)
            == Append(Last(w0 + Values(drained), cap), cap, item.value)
  {
    var vs := Values(drained);
    assert Values(drained + [item]) == vs + [item.value];
    assert w0 + (vs + [item.value]) == (w0 + vs) + [item.value];
    LastOfAppend(w0 + vs, cap, item.value);
  }

  /** Draining one more queued sample offers its timestamp to the axis. */
  lemma NewerStep<T>(t0: seq<int>, cap: nat, drained: seq<Sample<T>>, item: Sample<T>)
    requires |t0| <= cap
    ensures FoldNewer(t0, cap, Times(drained + [item]))
            == AppendIfNewer(FoldNewer(t0, cap, Times(drained)), cap, item.at)
  {
    var xs := Times(drained) + [item.at];
    assert Times(drained + [item]) == xs;
    assert xs[..|xs| - 1] == Times(drained);
  }

  /** A window of 105 raw readings keeps readings 6 to 105, in order. */
  lemma RawOverflowKeepsNewest(readings: seq<real>)
    requires |readings| == RawCapacity + 5
    ensures FoldWindow([], RawCapacity, readings) == readings[5..]
  {
    FoldWindowIsLast([], RawCapacity, readings);
    assert [] + readings == readings;
  }

  class CompactFftAnalyzer {
    // hand-off queues, filled by the message callback
    var tempFftQueue: seq<Sample<JsonValue>>
    var humidFftQueue: seq<Sample<JsonValue>>
    var tempRawQueue: seq<Sample<real>>
    var humidRawQueue: seq<Sample<real>>

    // rolling windows read by the charts
    var tempFftData: seq<JsonValue>
    var humidFftData: seq<JsonValue>
    var tempRawData: seq<real>
    var humidRawData: seq<real>
    var timestamps: seq<int>

    // observability counters
    var messageCount: nat
    var fftMessageCount: nat
    var lastMessageTime: int
    var isConnected: bool

    /** Every window within its `maxlen`, and the timestamp axis strictly increasing. */
    ghost predicate Valid()
      reads this
    {
      && |tempFftData| <= FftCapacity
      && |humidFftData| <= FftCapacity
      && |tempRawData| <= RawCapacity
      && |humidRawData| <= RawCapacity
      && |timestamps| <= TimestampCapacity
      && Increasing(timestamps)
    }

    ghost predicate QueuesEmpty()
      reads this
    {
      tempFftQueue == [] && humidFftQueue == [] && tempRawQueue == [] && humidRawQueue == []
    }

    /** A fresh analyzer; `startTime` is the clock reading taken at construction. */
    constructor (startTime: int)
      ensures Valid() && QueuesEmpty()
      ensures tempFftData == [] && humidFftData == [] && tempRawData == [] && humidRawData == []
      ensures timestamps == []
      ensures messageCount == 0 && fftMessageCount == 0
      ensures lastMessageTime == startTime && !isConnected
    {
      tempFftQueue, humidFftQueue, tempRawQueue, humidRawQueue := [], [], [], [];
      tempFftData, humidFftData, tempRawData, humidRawData := [], [], [], [];
      timestamps := [];
      messageCount, fftMessageCount := 0, 0;
      lastMessageTime := startTime;
      isConnected := false;
    }

    /**
     * The message callback. `payload` is the UTF-8 decoding of the wire payload
     * (`None` when it is not UTF-8), `now` the delivery timestamp and
     * `wallTime` the clock reading stored as the last message time. Every
     * exception is caught, so a bad payload only stops the callback early.
     */
    method OnMessage(topic: string, payload: Option<string>, now: int, wallTime: int,
                     parseJson: string -> Option<JsonValue>, parseFloat: string -> Option<real>)
      requires Valid()
      modifies this
      ensures Valid()
      // the payload is decoded before anything is counted
      ensures payload.None? ==> unchanged(this)
      ensures payload.Some? ==> messageCount == old(messageCount) + 1 && lastMessageTime == wallTime
      // exactly the queue the route names grows, by one sample stamped `now`
      ensures payload.Some? ==>
        var r := Route(topic, payload.value, parseJson, parseFloat);
        && tempFftQueue == old(tempFftQueue) + (if r.TempFft? then [Sample(r.data, now)] else [])
        && humidFftQueue == old(humidFftQueue) + (if r.HumidFft? then [Sample(r.data, now)] else [])
        && tempRawQueue == old(tempRawQueue) + (if r.TempRaw? then [Sample(r.reading, now)] else [])
        && humidRawQueue == old(humidRawQueue) + (if r.HumidRaw? then [Sample(r.reading, now)] else [])
        && fftMessageCount == old(fftMessageCount) + (if r.TempFft? || r.HumidFft? then 1 else 0)
      // the windows belong to the drain
      ensures tempFftData == old(tempFftData) && humidFftData == old(humidFftData)
      ensures tempRawData == old(tempRawData) && humidRawData == old(humidRawData)
      ensures timestamps == old(timestamps) && isConnected == old(isConnected)
    {
      if payload.None? {
        return;  // decode('utf-8') raised: caught and logged
      }
      var text := payload.value;
      var timestamp := now;
      messageCount := messageCount + 1;
      lastMessageTime := wallTime;

      if topic == TemperatureFftTopic {
        match parseJson(text)
        case Some(data) =>
          tempFftQueue := tempFftQueue + [Sample(data, timestamp)];
          fftMessageCount := fftMessageCount + 1;
        case None =>  // json.loads raised: caught and logged
      } else if topic == HumidityFftTopic {
        match parseJson(text)
        case Some(data) =>
          humidFftQueue := humidFftQueue + [Sample(data, timestamp)];
          fftMessageCount := fftMessageCount + 1;
        case None =>
      } else if topic == TemperatureTopic {
        match parseFloat(text)
        case Some(v) =>
          tempRawQueue := tempRawQueue + [Sample(v, timestamp)];
        case None =>  // float() raised: caught and logged
      } else if topic == HumidityTopic {
        match parseFloat(text)
        case Some(v) =>
          humidRawQueue := humidRawQueue + [Sample(v, timestamp)];
        case None =>
      }
    }

    /**
     * The drain, run under the data lock: empties the four queues in FIFO
     * order into their windows; only the temperature spectrum queue feeds the
     * timestamp axis, and only with timestamps later than its newest entry.
     */
    method ProcessQueues()
      requires Valid()
      modifies this
      ensures Valid() && QueuesEmpty()
      ensures tempFftData == Last(old(tempFftData) + Values(old(tempFftQueue)), FftCapacity)
      ensures humidFftData == Last(old(humidFftData) + Values(old(humidFftQueue)), FftCapacity)
      ensures tempRawData == Last(old(tempRawData) + Values(old(tempRawQueue)), RawCapacity)
      ensures humidRawData == Last(old(humidRawData) + Values(old(humidRawQueue)), RawCapacity)
      ensures timestamps ==
        Last(old(timestamps) + Records(old(timestamps), Times(old(tempFftQueue))), TimestampCapacity)
      // with nothing queued, nothing changes
      ensures old(QueuesEmpty()) ==>
        && tempFftData == old(tempFftData) && humidFftData == old(humidFftData)
        && tempRawData == old(tempRawData) && humidRawData == old(humidRawData)
        && timestamps == old(timestamps)
      ensures messageCount == old(messageCount) && fftMessageCount == old(fftMessageCount)
      ensures lastMessageTime == old(lastMessageTime) && isConnected == old(isConnected)
    {
      DrainTemperatureFft();
      DrainHumidityFft();
      DrainTemperatureRaw();
      DrainHumidityRaw();
    }

    /** The first loop of the drain: the temperature spectrum window and the timestamp axis. */
    method DrainTemperatureFft()
      requires |tempFftData| <= FftCapacity && |timestamps| <= TimestampCapacity && Increasing(timestamps)
      modifies this`tempFftQueue, this`tempFftData, this`timestamps
      ensures tempFftQueue == [] && |tempFftData| <= FftCapacity
      ensures tempFftData == Last(old(tempFftData) + Values(old(tempFftQueue)), FftCapacity)
      ensures |timestamps| <= TimestampCapacity && Increasing(timestamps)
      ensures timestamps ==
        Last(old(timestamps) + Records(old(timestamps), Times(old(tempFftQueue))), TimestampCapacity)
    {
      ghost var q0, w0, t0 := tempFftQueue, tempFftData, timestamps;
      ghost var drained: seq<Sample<JsonValue>> := [];
      while tempFftQueue != []
        invariant q0 == drained + tempFftQueue
        invariant tempFftData == Last(w0 + Values(drained), FftCapacity)
        invariant timestamps == FoldNewer(t0, TimestampCapacity, Times(drained))
        decreases |tempFftQueue|
      {
        var item := tempFftQueue[0];
        tempFftQueue := tempFftQueue[1..];
        assert q0 == (drained + [item]) + tempFftQueue;
        WindowStep(w0, FftCapacity, drained, item);
        NewerStep(t0, TimestampCapacity, drained, item);
        tempFftData := Append(tempFftData, FftCapacity, item.value);
        if IsNewer(item.at, timestamps) {
          timestamps := Append(timestamps, TimestampCapacity, item.at);
        }
        drained := drained + [item];
      }
      assert drained == q0;
      FoldNewerIsLastOfRecords(t0, TimestampCapacity, Times(q0));
      FoldNewerIncreasing(t0, TimestampCapacity, Times(q0));
    }

    /** The second loop of the drain; it leaves the timestamp axis alone. */
    method DrainHumidityFft()
      requires |humidFftData| <= FftCapacity
      modifies this`humidFftQueue, this`humidFftData
      ensures humidFftQueue == [] && |humidFftData| <= FftCapacity
      ensures humidFftData == Last(old(humidFftData) + Values(old(humidFftQueue)), FftCapacity)
    {
      ghost var q0, w0 := humidFftQueue, humidFftData;
      ghost var drained: seq<Sample<JsonValue>> := [];
      while humidFftQueue != []
        invariant q0 == drained + humidFftQueue
        invariant humidFftData == Last(w0 + Values(drained), FftCapacity)
        decreases |humidFftQueue|
      {
        var item := humidFftQueue[0];
        humidFftQueue := humidFftQueue[1..];
        assert q0 == (drained + [item]) + humidFftQueue;
        WindowStep(w0, FftCapacity, drained, item);
        humidFftData := Append(humidFftData, FftCapacity, item.value);
        drained := drained + [item];
      }
      assert drained == q0;
    }

    /** The third loop of the drain. */
    method DrainTemperatureRaw()
      requires |tempRawData| <= RawCapacity
      modifies this`tempRawQueue, this`tempRawData
      ensures tempRawQueue == [] && |tempRawData| <= RawCapacity
      ensures tempRawData == Last(old(tempRawData) + Values(old(tempRawQueue)), RawCapacity)
    {
      ghost var q0, w0 := tempRawQueue, tempRawData;
      ghost var drained: seq<Sample<real>> := [];
      while tempRawQueue != []
        invariant q0 == drained + tempRawQueue
        invariant tempRawData == Last(w0 + Values(drained), RawCapacity)
        decreases |tempRawQueue|
      {
        var item := tempRawQueue[0];
        tempRawQueue := tempRawQueue[1..];
        assert q0 == (drained + [item]) + tempRawQueue;
        WindowStep(w0, RawCapacity, drained, item);
        tempRawData := Append(tempRawData, RawCapacity, item.value);
        drained := drained + [item];
      }
      assert drained == q0;
    }

    /** The fourth loop of the drain. */
    method DrainHumidityRaw()
      requires |humidRawData| <= RawCapacity
      modifies this`humidRawQueue, this`humidRawData
      ensures humidRawQueue == [] && |humidRawData| <= RawCapacity
      ensures humidRawData == Last(old(humidRawData) + Values(old(humidRawQueue)), RawCapacity)
    {
      ghost var q0, w0 := humidRawQueue, humidRawData;
      ghost var drained: seq<Sample<real>> := [];
      while humidRawQueue != []
        invariant q0 == drained + humidRawQueue
        invariant humidRawData == Last(w0 + Values(drained), RawCapacity)
        decreases |humidRawQueue|
      {
        var item := humidRawQueue[0];
        humidRawQueue := humidRawQueue[1..];
        assert q0 == (drained + [item]) + humidRawQueue;
        WindowStep(w0, RawCapacity, drained, item);
        humidRawData := Append(humidRawData, RawCapacity, item.value);
        drained := drained + [item];
      }
      assert drained == q0;
    }
  }
}
