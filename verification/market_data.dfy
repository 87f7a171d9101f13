/** The pure parts of the `market-data-api` edge function: mapping a Twelve
    Data interval name to the stored MT5 timeframe code, and deriving the
    stream tick (bid, ask, last) from the newest candle. */
module MarketData {
  import opened Common

  /** The seven timeframe codes the table stores. */
  const TimeframeCodes: set<string> := {"M1", "M5", "M15", "M30", "H1", "H4", "D1"}

  /** The object literal's own entries. */
  const IntervalTable: map<string, string> := map[
    "1min" := "M1", "5min" := "M5", "15min" := "M15", "30min" := "M30",
    "1h" := "H1", "4h" := "H4", "1day" := "D1"]

  const DefaultTimeframe: string := "M1"

  /** The names every plain object inherits from `Object.prototype`; reading
      one of them from the literal gives a function or object, never
      undefined. */
  const InheritedNames: set<string> := {
    "constructor", "hasOwnProperty", "isPrototypeOf", "propertyIsEnumerable",
    "toLocaleString", "toString", "valueOf", "__proto__",
    "__defineGetter__", "__defineSetter__", "__lookupGetter__", "__lookupSetter__"}

  /** A JavaScript value as far as `map[interval] || 'M1'` can produce one: a
      string, or the inherited member of that name (truthy, not a string). */
  datatype JsValue = Str(s: string) | InheritedMember(name: string)

  /** `mapInterval` as written: an own entry, else an inherited member, else
      the default (every own value is a non-empty, truthy string). */
  function MapIntervalAsWritten(interval: string): (v: JsValue)
    ensures interval in IntervalTable ==> v == Str(IntervalTable[interval])
    ensures interval !in IntervalTable && interval in InheritedNames ==> v == InheritedMember(interval)
    ensures interval !in IntervalTable && interval !in InheritedNames ==> v == Str(DefaultTimeframe)
  {
    if interval in IntervalTable then Str(IntervalTable[interval])
    else if interval in InheritedNames then InheritedMember(interval)
    else Str(DefaultTimeframe)
  }

  /** The interval "toString" yields `Object.prototype.toString` rather than
      a timeframe code. */
  lemma MapIntervalAsWrittenNotACode()
    ensures MapIntervalAsWritten("toString") == InheritedMember("toString")
    ensures !(MapIntervalAsWritten("toString").Str? && MapIntervalAsWritten("toString").s in TimeframeCodes)
  {
    assert "toString" !in IntervalTable;
  }

  /** `mapInterval` as intended: a total lookup with the default M1 for every
      name that is not one of the seven own entries. */
  function MapInterval(interval: string): (code: string)
    ensures code in TimeframeCodes
    ensures interval in IntervalTable ==> code == IntervalTable[interval]
    ensures interval !in IntervalTable ==> code == DefaultTimeframe
  {
    if interval in IntervalTable then IntervalTable[interval] else DefaultTimeframe
  }

  /** The seven accepted interval names and the code each maps to. */
  lemma MapIntervalTable()
    ensures MapInterval("1min") == "M1" && MapInterval("5min") == "M5"
    ensures MapInterval("15min") == "M15" && MapInterval("30min") == "M30"
    ensures MapInterval("1h") == "H1" && MapInterval("4h") == "H4"
    ensures MapInterval("1day") == "D1"
    ensures MapInterval("45min") == "M1" && MapInterval("toString") == "M1"
  {
    assert "45min" !in IntervalTable;
    assert "toString" !in IntervalTable;
  }

  /** Every timeframe code is the image of one of the seven interval names. */
  lemma MapIntervalOnto(code: string)
    requires code in TimeframeCodes
    ensures exists interval :: interval in IntervalTable && MapInterval(interval) == code
  {
    if code == "M1" { assert MapInterval("1min") == code; }
    else if code == "M5" { assert MapInterval("5min") == code; }
    else if code == "M15" { assert MapInterval("15min") == code; }
    else if code == "M30" { assert MapInterval("30min") == code; }
    else if code == "H1" { assert MapInterval("1h") == code; }
    else if code == "H4" { assert MapInterval("4h") == code; }
    else { assert MapInterval("1day") == code; }
  }

  /** Both versions agree on every name that is not inherited from
      `Object.prototype`. */
  lemma MapIntervalAgrees(interval: string)
    requires interval !in InheritedNames
    ensures MapIntervalAsWritten(interval) == Str(MapInterval(interval))
  {
  }

  // ---------------------------------------------------------------------
  // The stream tick

  /** A stored candle, after parsing; newest first, as Twelve Data returns
      them. */
  datatype Candle = Candle(timeframe: string, timestamp: string, close: real, volume: int)

  /** The row written to `market_data_stream`. */
  datatype Tick = Tick(bid: real, ask: real, last: real, volume: int, timestamp: string)

  const HalfSpread: real := 0.10

  /** The tick of the newest candle: bid and ask ten cents either side of the
      close. No candles, no tick. */
  function StreamTick(candles: seq<Candle>): (t: Option<Tick>)
    ensures t.None? <==> |candles| == 0
    ensures t.Some? ==>
      && t.value.last == candles[0].close
      && t.value.bid < t.value.last < t.value.ask
      && t.value.ask - t.value.bid == 0.2
      && t.value.last - t.value.bid == t.value.ask - t.value.last
      && t.value.volume == candles[0].volume && t.value.timestamp == candles[0].timestamp
  {
    if |candles| == 0 then None
    else
      var latest := candles[0];
      Some(Tick(latest.close - HalfSpread, latest.close + HalfSpread, latest.close,
                latest.volume, latest.timestamp))
  }

  /** A candle as the handler builds it, whose timeframe is whatever
      `mapInterval` returned. */
  datatype RawCandle = RawCandle(timeframe: JsValue, timestamp: string, close: real, volume: int)

  /** The candles as written: each carries the as-written lookup's value,
      which for an inherited name is a function rather than a code. */
  function StoreCandlesAsWritten(interval: string, timestamps: seq<string>, closes: seq<real>, volumes: seq<int>): (cs: seq<RawCandle>)
    requires |timestamps| == |closes| == |volumes|
    ensures |cs| == |closes|
    ensures forall i :: 0 <= i < |cs| ==> cs[i].timeframe == MapIntervalAsWritten(interval)
    ensures forall i :: 0 <= i < |cs| ==> cs[i].close == closes[i] && cs[i].timestamp == timestamps[i]
  {
    seq(|closes|, i requires 0 <= i < |closes| => RawCandle(MapIntervalAsWritten(interval), timestamps[i], closes[i], volumes[i]))
  }

  /** Off the inherited names the candles as written are the corrected ones;
      on an inherited name not one of them carries a timeframe code. */
  lemma StoreCandlesAgree(interval: string, timestamps: seq<string>, closes: seq<real>, volumes: seq<int>)
    requires |timestamps| == |closes| == |volumes|
    ensures var raw := StoreCandlesAsWritten(interval, timestamps, closes, volumes);
      var cs := StoreCandles(interval, timestamps, closes, volumes);
      && (interval !in InheritedNames ==>
            forall i :: 0 <= i < |raw| ==> raw[i].timeframe == Str(cs[i].timeframe) && raw[i].volume == cs[i].volume)
      && (interval in InheritedNames ==>
            forall i :: 0 <= i < |raw| ==> raw[i].timeframe == InheritedMember(interval))
  {
    if interval in InheritedNames {
      assert interval !in IntervalTable;
    } else {
      MapIntervalAgrees(interval);
    }
  }

  /** The candles stored for a request, with the corrected lookup: all carry
      the interval's code. */
  function StoreCandles(interval: string, timestamps: seq<string>, closes: seq<real>, volumes: seq<int>): (cs: seq<Candle>)
    requires |timestamps| == |closes| == |volumes|
    ensures |cs| == |closes|
    ensures forall i :: 0 <= i < |cs| ==> cs[i].timeframe == MapInterval(interval) && cs[i].timeframe in TimeframeCodes
    ensures forall i :: 0 <= i < |cs| ==> cs[i].close == closes[i] && cs[i].timestamp == timestamps[i]
  {
    seq(|closes|, i requires 0 <= i < |closes| => Candle(MapInterval(interval), timestamps[i], closes[i], volumes[i]))
  }
}
