/**
 * Short message sequences driven through a fresh analyzer: one delivery
 * pattern per method, with the windows the drain leaves behind.
 */
module Scenarios {
  import opened Wrappers
  import opened RollingWindow
  import opened TimestampAxis
  import opened FftMqttAnalyzer

  /** One raw temperature reading, then a drain: the raw window holds exactly that reading. */
  method OneTemperatureReading(text: string, reading: real,
                               parseJson: string -> Option<JsonValue>, parseFloat: string -> Option<real>)
    returns (window: seq<real>, axis: seq<int>)
    requires parseFloat(text) == Some(reading)
    ensures window == [reading]
    ensures axis == []
  {
    var a := new CompactFftAnalyzer(0);
    a.OnMessage(TemperatureTopic, Some(text), 5, 1, parseJson, parseFloat);
    a.ProcessQueues();
    assert [] + Values([Sample(reading, 5)]) == [reading];
    window, axis := a.tempRawData, a.timestamps;
  }

  /**
   * Two temperature spectra delivered at times 10 and 20, then a drain: both
   * spectra are in the window and both times are on the axis.
   */
  method TwoSpectraInOrder(text: string, spectrum: JsonValue,
                           parseJson: string -> Option<JsonValue>, parseFloat: string -> Option<real>)
    returns (window: seq<JsonValue>, axis: seq<int>, fftCount: nat)
    requires parseJson(text) == Some(spectrum)
    ensures window == [spectrum, spectrum]
    ensures axis == [10, 20]
    ensures fftCount == 2
  {
    var a := new CompactFftAnalyzer(0);
    a.OnMessage(TemperatureFftTopic, Some(text), 10, 1, parseJson, parseFloat);
    a.OnMessage(TemperatureFftTopic, Some(text), 20, 2, parseJson, parseFloat);
    var q := [Sample(spectrum, 10), Sample(spectrum, 20)];
    assert a.tempFftQueue == q;
    a.ProcessQueues();
    assert Values(q) == [spectrum, spectrum];
    assert Times(q) == [10, 20];
    assert [10, 20][..1] == [10];
    assert Records([], [10]) == [10];
    assert Records([], [10, 20]) == [10, 20];
    window, axis, fftCount := a.tempFftData, a.timestamps, a.fftMessageCount;
  }

  /**
   * Two temperature spectra delivered at times 20 and then 10: both spectra
   * reach the window, but the earlier time is not put on the axis.
   */
  method TwoSpectraOutOfOrder(text: string, spectrum: JsonValue,
                              parseJson: string -> Option<JsonValue>, parseFloat: string -> Option<real>)
    returns (window: seq<JsonValue>, axis: seq<int>)
    requires parseJson(text) == Some(spectrum)
    ensures window == [spectrum, spectrum]
    ensures axis == [20]
  {
    var a := new CompactFftAnalyzer(0);
    a.OnMessage(TemperatureFftTopic, Some(text), 20, 1, parseJson, parseFloat);
    a.OnMessage(TemperatureFftTopic, Some(text), 10, 2, parseJson, parseFloat);
    var q := [Sample(spectrum, 20), Sample(spectrum, 10)];
    assert a.tempFftQueue == q;
    a.ProcessQueues();
    assert Values(q) == [spectrum, spectrum];
    assert Times(q) == [20, 10];
    assert [20, 10][..1] == [20];
    assert Records([], [20]) == [20];
    assert !IsRecord([], [20, 10], 1);
    assert Records([], [20, 10]) == [20];
    window, axis := a.tempFftData, a.timestamps;
  }

  /** A spectrum that does not parse is counted as a message and then dropped. */
  method MalformedSpectrum(text: string,
                           parseJson: string -> Option<JsonValue>, parseFloat: string -> Option<real>)
    returns (window: seq<JsonValue>, messages: nat, fftCount: nat)
    requires parseJson(text).None?
    ensures window == []
    ensures messages == 1 && fftCount == 0
  {
    var a := new CompactFftAnalyzer(0);
    a.OnMessage(TemperatureFftTopic, Some(text), 10, 1, parseJson, parseFloat);
    a.ProcessQueues();
    window, messages, fftCount := a.tempFftData, a.messageCount, a.fftMessageCount;
  }

  /** A drain with nothing delivered leaves every window empty. */
  method DrainWithoutMessages()
    returns (spectra: seq<JsonValue>, readings: seq<real>, axis: seq<int>)
    ensures spectra == [] && readings == [] && axis == []
  {
    var a := new CompactFftAnalyzer(0);
    a.ProcessQueues();
    spectra, readings, axis := a.tempFftData + a.humidFftData, a.tempRawData + a.humidRawData, a.timestamps;
  }
}
