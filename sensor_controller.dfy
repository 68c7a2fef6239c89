/**
 * The REST endpoints of `SensorController`. The health endpoint returns a
 * constant. Each of the three sensor endpoints reads the latest-value cache
 * once (`getLatestData().get()`, which yields a reading or null) and projects
 * it. They take the cache content as a value, so none of them can change the
 * cache.
 */
module SensorController {
  import opened Wrappers
  import opened SensorModel

  /** HTTP 200, the status `ResponseEntity.ok` sets. */
  const HttpOk: nat := 200

  /** A `ResponseEntity`: a status and a body (the body may itself be null). */
  datatype Response<T> = Response(status: nat, body: T)

  /** The exception an endpoint lets escape to the framework. */
  datatype Exception = NullPointerException

  /** What a call of an endpoint does: it returns a response or throws. */
  datatype Outcome<T> = Returned(response: Response<T>) | Threw(exception: Exception)

  /** The content of the latest-value cache: the last reading, or null before the first one. */
  type Cache = Option<SensorData>

  /** GET /api/health: a constant liveness marker. */
  function Health(): (r: Response<string>)
    ensures r.status == HttpOk
    ensures r.body == "Service is running"
  {
    Response(HttpOk, "Service is running")
  }

  /** GET /api/sensor/latest: the cached reading itself; an empty cache gives a null body, not an error. */
  function GetLatestSensorData(cache: Cache): (r: Response<Option<SensorData>>)
    ensures r.status == HttpOk
    ensures r.body.None? <==> cache.None?
    ensures cache.Some? ==> r.body.value == cache.value
  {
    Response(HttpOk, cache)
  }

  /** GET /api/sensor/dht: the DHT part of the cached reading; an empty cache is dereferenced and throws. */
  function GetDhtData(cache: Cache): (r: Outcome<Option<DhtData>>)
    ensures r.Threw? <==> cache.None?
    ensures r.Threw? ==> r.exception == NullPointerException
    ensures r.Returned? ==> r.response.status == HttpOk
    ensures r.Returned? ==> r.response.body == cache.value.dhtData
  {
    match cache
    case None => Threw(NullPointerException)
    case Some(data) => Returned(Response(HttpOk, data.dhtData))
  }

  /** GET /api/sensor/gps: the GPS part of the cached reading; an empty cache is dereferenced and throws. */
  function GetGpsData(cache: Cache): (r: Outcome<Option<GpsData>>)
    ensures r.Threw? <==> cache.None?
    ensures r.Threw? ==> r.exception == NullPointerException
    ensures r.Returned? ==> r.response.status == HttpOk
    ensures r.Returned? ==> r.response.body == cache.value.gpsData
  {
    match cache
    case None => Threw(NullPointerException)
    case Some(data) => Returned(Response(HttpOk, data.gpsData))
  }

  /**
   * The part endpoints agree with /sensor/latest on the same cache content:
   * the two part bodies rebuild exactly the reading that /sensor/latest returns.
   */
  lemma PartsRebuildLatest(cache: Cache)
    requires cache.Some?
    ensures GetDhtData(cache).Returned? && GetGpsData(cache).Returned?
    ensures GetLatestSensorData(cache).body
         == Some(SensorData(GetDhtData(cache).response.body, GetGpsData(cache).response.body))
  {
  }

  /** Before the first reading /sensor/latest answers 200 with a null body, while both part endpoints throw. */
  lemma PartEndpointsThrowBeforeFirstReading()
    ensures GetLatestSensorData(None) == Response(HttpOk, None)
    ensures GetDhtData(None) == Threw(NullPointerException)
    ensures GetGpsData(None) == Threw(NullPointerException)
  {
  }

  /**
   * GET /api/sensor/dht with the absent reading handled the way /sensor/latest
   * handles it: an empty cache gives 200 with a null body.
   */
  function GetDhtDataOrEmpty(cache: Cache): (r: Response<Option<DhtData>>)
    ensures r.status == HttpOk
    ensures cache.None? ==> r.body.None?
    ensures GetDhtData(cache).Returned? ==> r == GetDhtData(cache).response
  {
    match cache
    case None => Response(HttpOk, None)
    case Some(data) => Response(HttpOk, data.dhtData)
  }

  /**
   * GET /api/sensor/gps with the absent reading handled the way /sensor/latest
   * handles it: an empty cache gives 200 with a null body.
   */
  function GetGpsDataOrEmpty(cache: Cache): (r: Response<Option<GpsData>>)
    ensures r.status == HttpOk
    ensures cache.None? ==> r.body.None?
    ensures GetGpsData(cache).Returned? ==> r == GetGpsData(cache).response
  {
    match cache
    case None => Response(HttpOk, None)
    case Some(data) => Response(HttpOk, data.gpsData)
  }

  /** The corrected part endpoints never throw, and together they still rebuild the body of /sensor/latest. */
  lemma CorrectedPartsRebuildLatest(cache: Cache)
    ensures GetLatestSensorData(cache).body.Some?
        ==> GetLatestSensorData(cache).body
            == Some(SensorData(GetDhtDataOrEmpty(cache).body, GetGpsDataOrEmpty(cache).body))
    ensures GetLatestSensorData(cache).body.None?
        ==> GetDhtDataOrEmpty(cache).body.None? && GetGpsDataOrEmpty(cache).body.None?
  {
  }
}
