# FFT MQTT analyzer: the data hand-off core

This project models the data path of `CompactFFTAnalyzer` in
`fft_mqtt_analyzer.py` and proves properties of it. The path has two steps:

- **The message callback (`on_message`).** For every MQTT message whose payload decodes as UTF-8, it counts the message and records the wall-clock time. It then routes the message by topic:
  - `/temperature/fft` and `/humidity/fft` are parsed as JSON;
  - `/temperature` and `/humidity` are parsed as a float;
  - each parsed message goes into its own FIFO hand-off queue, stamped with its delivery time.

  A payload that fails to parse is logged and dropped. `/online` and other topics are only counted. `fft_message_count` grows only after a spectrum has been queued.
- **The drain (`process_queues`).** It empties the four queues in FIFO order into bounded rolling windows: `deque(maxlen=50)` for spectra and `deque(maxlen=100)` for raw readings. A full window evicts its oldest entry. Only the temperature-spectrum drain feeds the shared timestamp axis (`deque(maxlen=100)`). It appends a delivery time only when the axis is empty or the time is later than the axis's newest entry, so the axis stays strictly increasing.
- **The plot's x-axis.** The charts align each spectrum series with the axis by taking its last `len(series)` entries. That slice is modelled too.

Files:

- `wrappers.dfy`: the `Option` type returned by the payload decoders.
- `rolling_window.dfy`: a `deque(maxlen=cap)` used only for appends.
  - `Last(s, n)` is the reference definition: the last `n` elements of `s`.
  - `Append` is the single eviction step.
  - `FoldWindow` appends a whole sequence one element at a time.
  - The lemmas prove that the fold keeps exactly the last `cap` elements, and that draining in several ticks is the same as draining once.
- `timestamp_axis.dfy`: the monotone timestamp filter.
  - `AppendIfNewer` and `FoldNewer` model it step by step.
  - `Records` is an independent reference definition. An offered time is kept when it is later than the axis's newest entry and later than every time offered before it.
  - `AlignedTimes` is the Python slice `ts[-n:]`.
- `analyzer.dfy`: the analyzer itself.
  - `Route` is the callback's routing decision.
  - The class `CompactFftAnalyzer` has the queues, windows and counters as fields.
  - `OnMessage` and `ProcessQueues` change those fields in place.
  - The drain is split into one method per loop of the source, run in the source's order.
- `scenarios.dfy`: short message sequences through a fresh analyzer, each with the windows the drain leaves.

Abstractions:

- Delivery times and wall-clock readings are integers supplied by the caller.
- `json.loads` and `float()` are function parameters returning an `Option`.
- A failed UTF-8 decoding is a `None` payload.

## Model

| member | source | states |
|---|---|---|
| RollingWindow.Last | fft_mqtt_analyzer.py:40-44 | the window of capacity `n` over everything appended: never longer than `n` or than `s`, all of `s` when `s` fits, exactly `n` elements otherwise |
| RollingWindow.Append | fft_mqtt_analyzer.py:40-44 | `deque.append` at `maxlen == cap` stays within `cap`, equals the last `cap` elements of the window extended by `x`, and ends with `x` |
| RollingWindow.FoldWindow | fft_mqtt_analyzer.py:147-177 | appending a sequence element by element never exceeds the capacity |
| RollingWindow.LastOfAppend | fft_mqtt_analyzer.py:40-44 | evicting before an append gives the same window as truncating after it |
| RollingWindow.FoldWindowIsLast | fft_mqtt_analyzer.py:147-177 | after the drain, a window is the last `maxlen` elements of the old window followed by the drained items, in FIFO order |
| RollingWindow.LastOfConcat | fft_mqtt_analyzer.py:143-177 | draining in two ticks gives the same window as draining all items in one tick |
| TimestampAxis.AppendIfNewer | fft_mqtt_analyzer.py:151-152 | the axis stays within its capacity; a time not later than the newest entry leaves it unchanged; a later time becomes the newest entry |
| TimestampAxis.IncreasingSuffix | fft_mqtt_analyzer.py:44 | dropping the oldest entries of a strictly increasing axis keeps it strictly increasing |
| TimestampAxis.IncreasingAfterNewer | fft_mqtt_analyzer.py:151-152 | appending a later time, with eviction at capacity, keeps the axis strictly increasing |
| TimestampAxis.FoldNewer | fft_mqtt_analyzer.py:147-154 | offering the drained times one by one never exceeds the axis capacity |
| TimestampAxis.FoldNewerIncreasing | fft_mqtt_analyzer.py:147-154 | the temperature-spectrum drain keeps the axis strictly increasing |
| TimestampAxis.RecordsTop | fft_mqtt_analyzer.py:151 | after the filter, the newest entry bounds every offered time and is either the old newest entry or one of the offered times |
| TimestampAxis.IsNewerIsRecord | fft_mqtt_analyzer.py:151 | the step-by-step test `len == 0 or t > last` accepts exactly the times that are records, in both directions |
| TimestampAxis.FoldNewerIsLastOfRecords | fft_mqtt_analyzer.py:147-154 | the axis after the drain equals the last 100 of (old axis followed by the records of the drained times) |
| TimestampAxis.AlignedTimes | fft_mqtt_analyzer.py:217 | `ts[-n:]` is a suffix of the axis of length `min(n, len(ts))` (the whole axis when `n` is 0), and it is strictly increasing when the axis is |
| FftMqttAnalyzer.Route | fft_mqtt_analyzer.py:118-138 | each of the four queued outcomes holds iff its topic matched and its decoder succeeded; dropped iff a routed topic's decoder failed; not queued iff the topic is none of the four, including `/online`; the queued value is the decoder's result |
| FftMqttAnalyzer.WindowStep | fft_mqtt_analyzer.py:147-150 | taking one more queued item and appending it keeps the window equal to the last `maxlen` of (old window ++ items drained so far) |
| FftMqttAnalyzer.NewerStep | fft_mqtt_analyzer.py:147-152 | taking one more queued item offers exactly its delivery time to the axis |
| FftMqttAnalyzer.RawOverflowKeepsNewest | fft_mqtt_analyzer.py:42 | 105 readings appended to an empty raw window leave readings 6 to 105, in order |
| FftMqttAnalyzer.CompactFftAnalyzer.constructor | fft_mqtt_analyzer.py:34-50 | empty queues, windows and axis, zero counters, the clock reading as last message time, not connected |
| FftMqttAnalyzer.CompactFftAnalyzer.OnMessage | fft_mqtt_analyzer.py:109-141 | an undecodable payload changes nothing; otherwise the message count grows by one and the last message time is set; exactly the queue the route names grows, by one sample stamped with the delivery time, and the other three are unchanged; the FFT count grows by one exactly for a queued spectrum; windows and axis untouched; the invariant is kept |
| FftMqttAnalyzer.CompactFftAnalyzer.ProcessQueues | fft_mqtt_analyzer.py:143-177 | all four queues are empty afterwards; each window is the last `maxlen` of (old window ++ drained values); the axis is the last 100 of (old axis ++ records among the temperature-spectrum times) and stays strictly increasing; with nothing queued no window changes; counters untouched |
| FftMqttAnalyzer.CompactFftAnalyzer.DrainTemperatureFft | fft_mqtt_analyzer.py:147-154 | the first loop empties its queue into the spectrum window and feeds the axis through the filter; the axis stays bounded and strictly increasing |
| FftMqttAnalyzer.CompactFftAnalyzer.DrainHumidityFft | fft_mqtt_analyzer.py:157-162 | the second loop empties its queue into its window and may modify nothing else, the axis included |
| FftMqttAnalyzer.CompactFftAnalyzer.DrainTemperatureRaw | fft_mqtt_analyzer.py:165-170 | the third loop empties its queue into its window and may modify nothing else |
| FftMqttAnalyzer.CompactFftAnalyzer.DrainHumidityRaw | fft_mqtt_analyzer.py:172-177 | the fourth loop empties its queue into its window and may modify nothing else |
| Scenarios.OneTemperatureReading | fft_mqtt_analyzer.py:130-133 | one parsed temperature reading and a drain leave exactly that reading in the raw window and nothing on the axis |
| Scenarios.TwoSpectraInOrder | fft_mqtt_analyzer.py:118-121 | two temperature spectra at increasing times give a spectrum window of two, an axis of both times, and an FFT count of 2 |
| Scenarios.TwoSpectraOutOfOrder | fft_mqtt_analyzer.py:147-152 | a spectrum delivered earlier than the axis's newest time still reaches the window, but its time is not added to the axis |
| Scenarios.MalformedSpectrum | fft_mqtt_analyzer.py:112-121 | an unparsable spectrum is counted as a message, not as an FFT message, and leaves the spectrum window empty |
| Scenarios.DrainWithoutMessages | fft_mqtt_analyzer.py:143-177 | a drain with nothing delivered leaves every window and the axis empty |

## Left out

- MQTT transport is not modelled: client construction, `connect`, `loop_start`, `disconnect`, `start` and the `on_connect`/`on_disconnect` callbacks (fft_mqtt_analyzer.py:29-31, 92-107, 293-315). Without them, `isConnected` is only initialised.
- Threads are not modelled. `queue.Queue` and `threading.Lock` are not represented, and `OnMessage` and `ProcessQueues` are sequential, atomic methods. The `queue.Empty` branches of the drain cannot be taken in that setting and have no counterpart.
- Broker address, port and credentials are configuration only and are not modelled.
- The internals of `json.loads`, `float()`, UTF-8 decoding, `datetime.now()` and `time.time()` are not modelled; they are inputs.
- `datetime` ordering is modelled as integer ordering.
- Console output is not modelled. This includes the f-strings printed after an enqueue, which can raise on a spectrum that is not a JSON object. The exception is caught after the queue and the FFT count have already changed, so the modelled state is the same either way.
- `update_plots` and `setup_compact_plots` are not modelled apart from the `ts[-n:]` alignment: drawing, `np.mean`, `max` and the floating-point period formula. The humidity charts align against the axis fed by temperature spectra, so their x-axis can be shorter than their series. That is a rendering concern; `AlignedTimes` states the slice's length exactly.
- `test_mqtt_connection.py` is not part of this model. It is a network connectivity probe.
- FftMqttAnalyzer.CompactFftAnalyzer.ProcessQueues: the four drain loops are separate methods, called in the source's order, rather than four loops in one body.
