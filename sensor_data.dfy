/**
 * The telemetry reading (`SensorData` with its nested `DhtData` and `GpsData`).
 * The nested parts are mutable objects with setters; they are modelled as
 * values, and a setter as a function that returns the updated part.
 * Numeric fields are kept as opaque values: the system never computes with them,
 * it only stores, copies and serialises them.
 */
module SensorModel {
  import opened Wrappers

  /** A Java `double`, held as its IEEE 754 binary64 bit pattern. */
  datatype Double = Double(bits: bv64)

  /** `0.0`, the value a `double` field has when it is never assigned. */
  const PositiveZero: Double := Double(0)

  /** A Java `int`. */
  newtype Int32 = x: int | -0x8000_0000 <= x < 0x8000_0000

  /** A `java.time.LocalDateTime`, used only as an opaque token. */
  datatype LocalDateTime = LocalDateTime(token: int)

  /** Temperature and humidity from the DHT sensor; `timestamp` may be null. */
  datatype DhtData = DhtData(temperature: Double, humidity: Double, timestamp: Option<LocalDateTime>)
  {
    /** The no-args constructor: every field keeps its Java default. */
    static function NoArgs(): (d: DhtData)
      ensures d.temperature == PositiveZero && d.humidity == PositiveZero
      ensures d.timestamp == None
    {
      DhtData(PositiveZero, PositiveZero, None)
    }

    function SetTemperature(t: Double): (d: DhtData)
      ensures d.temperature == t
      ensures d.humidity == humidity && d.timestamp == timestamp
    {
      this.(temperature := t)
    }

    function SetHumidity(h: Double): (d: DhtData)
      ensures d.humidity == h
      ensures d.temperature == temperature && d.timestamp == timestamp
    {
      this.(humidity := h)
    }

    function SetTimestamp(ts: Option<LocalDateTime>): (d: DhtData)
      ensures d.timestamp == ts
      ensures d.temperature == temperature && d.humidity == humidity
    {
      this.(timestamp := ts)
    }
  }

  /** A GPS fix; `timestamp` may be null. */
  datatype GpsData = GpsData(longitude: Double, latitude: Double, satellites: Int32, timestamp: Option<LocalDateTime>)
  {
    /** The no-args constructor: every field keeps its Java default. */
    static function NoArgs(): (g: GpsData)
      ensures g.longitude == PositiveZero && g.latitude == PositiveZero
      ensures g.satellites == 0 && g.timestamp == None
    {
      GpsData(PositiveZero, PositiveZero, 0, None)
    }

    function SetLongitude(x: Double): (g: GpsData)
      ensures g.longitude == x
      ensures g.latitude == latitude && g.satellites == satellites && g.timestamp == timestamp
    {
      this.(longitude := x)
    }

    function SetLatitude(y: Double): (g: GpsData)
      ensures g.latitude == y
      ensures g.longitude == longitude && g.satellites == satellites && g.timestamp == timestamp
    {
      this.(latitude := y)
    }

    function SetSatellites(n: Int32): (g: GpsData)
      ensures g.satellites == n
      ensures g.longitude == longitude && g.latitude == latitude && g.timestamp == timestamp
    {
      this.(satellites := n)
    }

    function SetTimestamp(ts: Option<LocalDateTime>): (g: GpsData)
      ensures g.timestamp == ts
      ensures g.longitude == longitude && g.latitude == latitude && g.satellites == satellites
    {
      this.(timestamp := ts)
    }
  }

  /**
   * A reading: a DHT part and a GPS part. `SensorData` itself has getters and
   * no setters, but its parts are mutable objects that the getters hand out,
   * so a part can still be changed in place after the reading is built; here
   * the parts are values and their setters return updated copies. Either part
   * is a reference that the all-args constructor may set to null.
   */
  datatype SensorData = SensorData(dhtData: Option<DhtData>, gpsData: Option<GpsData>)
  {
    /** The no-args constructor runs the field initialisers: both parts present, both default. */
    static function NoArgs(): (r: SensorData)
      ensures r.dhtData.Some? && r.gpsData.Some?
      ensures r.dhtData.value == DhtData.NoArgs() && r.gpsData.value == GpsData.NoArgs()
    {
      SensorData(Some(DhtData.NoArgs()), Some(GpsData.NoArgs()))
    }
  }

  /** The all-args constructor stores its arguments, and the getters hand them back unchanged. */
  lemma AllArgsGettersReturnArguments(dht: Option<DhtData>, gps: Option<GpsData>)
    ensures SensorData(dht, gps).dhtData == dht
    ensures SensorData(dht, gps).gpsData == gps
  {
  }

  /** A reading is exactly its two parts: rebuilding it from its getters gives it back. */
  lemma ReadingIsItsParts(r: SensorData)
    ensures SensorData(r.dhtData, r.gpsData) == r
  {
  }

  /** Setting a field back to the value it had undoes the first setter call. */
  lemma SettersAreUndoable(d: DhtData, g: GpsData, t: Double, n: Int32, ts: Option<LocalDateTime>)
    ensures d.SetTemperature(t).SetTemperature(d.temperature) == d
    ensures d.SetHumidity(t).SetHumidity(d.humidity) == d
    ensures d.SetTimestamp(ts).SetTimestamp(d.timestamp) == d
    ensures g.SetTimestamp(ts).SetTimestamp(g.timestamp) == g
    ensures g.SetLongitude(t).SetLongitude(g.longitude) == g
    ensures g.SetLatitude(t).SetLatitude(g.latitude) == g
    ensures g.SetSatellites(n).SetSatellites(g.satellites) == g
  {
  }
}
