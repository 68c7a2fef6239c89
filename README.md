# Telemetry distribution core of MqttRestApp, in Dafny

This project models the server side of how `MqttRestApp` hands sensor
telemetry to its clients:

- **Push fan-out** (`SensorWebSocketHandler`). A registry of WebSocket sessions
  is kept. A newly established session is primed with the cached reading.
  A closed session is removed. Every new reading is broadcast to every
  registered open session, and a send that throws does not stop the others.
- **The reading** (`SensorData` with its nested `DhtData` and `GpsData`). Each
  has a no-args and an all-args constructor. `SensorData` has only getters. The
  nested parts are mutable objects with setters, and the model treats them as
  values (see Left out).
- **Snapshot endpoints** (`SensorController`). `/api/health` returns a
  constant. The three endpoints `/api/sensor/latest`, `/api/sensor/dht` and
  `/api/sensor/gps` each read the latest-value cache once and return a
  projection of it.

Files and modules:

- `wrappers.dfy`, module `Wrappers`: `Option`, which stands for a Java
  reference that may be null.
- `sensor_data.dfy`, module `SensorModel`: the reading.
- `sensor_controller.dfy`, module `SensorController`: the REST endpoints, as
  functions of the cache content.
- `fanout.dfy`, module `Fanout`: the delivery rules stated on values. It
  covers one send, one broadcast over a map from session to what the session
  has received, registering and unregistering, and a run of broadcasts. The
  lemmas here state isolation, ordering and last-write-wins. A run of
  broadcasts is a sequence of rounds. Each round gives the transport state the
  broadcast finds and the serialised reading, so a session whose send fails
  at one broadcast can still receive the next one.
- `sensor_web_socket_handler.dfy`, module `WebSocket`: the imperative handler.
  `Session` is a class that holds the transport state: `isOpen`, `sendFails`
  (an oracle for "sendMessage throws") and `sent` (the log of delivered
  frames). `SensorWebSocketHandler` is a class with a `set<Session>` field and
  the serialiser. Each method is proved to change the state exactly as the
  `Fanout` function for it says. The broadcast is a loop over the set.

Modelling choices:

- A Java `double` is its 64-bit pattern (`Double`). `0.0` is pattern 0.
- A Java `int` is a 32-bit `newtype`.
- A `LocalDateTime` is an opaque token. A field that may be null is an
  `Option`.
- `SensorData` holds its two parts as `Option`s, because the all-args
  constructor accepts null parts. The no-args constructor gives present
  default parts.
- The Jackson serialiser is the handler's `serialise` field, of type
  `SensorData -> Option<Message>`. `None` means serialisation threw. The same
  serialiser is used for priming and for broadcasting.
- The service lookup used while priming is a parameter, `ServiceLookup`. The
  lookup may throw, may return a null service, or may return the service
  together with its cache content.
- A send succeeds only when the session is open and its oracle does not make
  it fail. A failed send is the exception the handler catches: nothing is
  delivered.
- `/sensor/dht` and `/sensor/gps` dereference the cached reading without a
  null check. On an empty cache the model returns `Threw(NullPointerException)`
  for them. Elsewhere the source treats an empty cache as an expected state:
  `/sensor/latest` answers 200 with a null body
  (`SensorController.java:26-28`), and priming checks the same cache value
  for null (`SensorWebSocketHandler.java:34-35`). See Findings.

## Model

| member | source | states |
|---|---|---|
| `SensorModel.DhtData.NoArgs` | electronic-side/MqttRestApp/src/main/java/com/tracksecure/mqttrestapp/model/SensorData.java:18-23 | a default DHT part has temperature 0.0, humidity 0.0 and no timestamp |
| `SensorModel.DhtData.SetTemperature` | electronic-side/MqttRestApp/src/main/java/com/tracksecure/mqttrestapp/model/SensorData.java:16-21 | the new temperature is the given one; humidity and timestamp are unchanged |
| `SensorModel.DhtData.SetHumidity` | electronic-side/MqttRestApp/src/main/java/com/tracksecure/mqttrestapp/model/SensorData.java:16-22 | the new humidity is the given one; temperature and timestamp are unchanged |
| `SensorModel.DhtData.SetTimestamp` | electronic-side/MqttRestApp/src/main/java/com/tracksecure/mqttrestapp/model/SensorData.java:16-23 | the new timestamp is the given one; temperature and humidity are unchanged |
| `SensorModel.GpsData.NoArgs` | electronic-side/MqttRestApp/src/main/java/com/tracksecure/mqttrestapp/model/SensorData.java:37-43 | a default GPS part has longitude 0.0, latitude 0.0, 0 satellites and no timestamp |
| `SensorModel.GpsData.SetLongitude` | electronic-side/MqttRestApp/src/main/java/com/tracksecure/mqttrestapp/model/SensorData.java:35-40 | the new longitude is the given one; the other three fields are unchanged |
| `SensorModel.GpsData.SetLatitude` | electronic-side/MqttRestApp/src/main/java/com/tracksecure/mqttrestapp/model/SensorData.java:35-41 | the new latitude is the given one; the other three fields are unchanged |
| `SensorModel.GpsData.SetSatellites` | electronic-side/MqttRestApp/src/main/java/com/tracksecure/mqttrestapp/model/SensorData.java:35-42 | the new satellite count is the given one; the other three fields are unchanged |
| `SensorModel.GpsData.SetTimestamp` | electronic-side/MqttRestApp/src/main/java/com/tracksecure/mqttrestapp/model/SensorData.java:35-43 | the new timestamp is the given one; the other three fields are unchanged |
| `SensorModel.SensorData.NoArgs` | electronic-side/MqttRestApp/src/main/java/com/tracksecure/mqttrestapp/model/SensorData.java:9-13 | no-args construction gives both parts present, each equal to its default part |
| `SensorModel.AllArgsGettersReturnArguments` | electronic-side/MqttRestApp/src/main/java/com/tracksecure/mqttrestapp/model/SensorData.java:7-13 | the getters return exactly the parts given to the all-args constructor |
| `SensorModel.ReadingIsItsParts` | electronic-side/MqttRestApp/src/main/java/com/tracksecure/mqttrestapp/model/SensorData.java:11-13 | a reading is exactly its DHT part and its GPS part: rebuilding it from its getters gives it back |
| `SensorModel.SettersAreUndoable` | electronic-side/MqttRestApp/src/main/java/com/tracksecure/mqttrestapp/model/SensorData.java:15-42 | setting a field back to its earlier value restores the earlier record, so a setter touches nothing else |
| `SensorController.Health` | electronic-side/MqttRestApp/src/main/java/com/tracksecure/mqttrestapp/controller/SensorController.java:19-22 | health always answers 200 with the body "Service is running" |
| `SensorController.GetLatestSensorData` | electronic-side/MqttRestApp/src/main/java/com/tracksecure/mqttrestapp/controller/SensorController.java:24-29 | answers 200 with exactly the cached reading; the body is null exactly when the cache is empty, and this is not an error |
| `SensorController.GetDhtData` | electronic-side/MqttRestApp/src/main/java/com/tracksecure/mqttrestapp/controller/SensorController.java:31-35 | throws NullPointerException exactly when the cache is empty; otherwise answers 200 with the cached reading's DHT part |
| `SensorController.GetGpsData` | electronic-side/MqttRestApp/src/main/java/com/tracksecure/mqttrestapp/controller/SensorController.java:37-41 | throws NullPointerException exactly when the cache is empty; otherwise answers 200 with the cached reading's GPS part |
| `SensorController.PartsRebuildLatest` | electronic-side/MqttRestApp/src/main/java/com/tracksecure/mqttrestapp/controller/SensorController.java:24-41 | on a non-empty cache the DHT and GPS bodies are the parts of the reading /sensor/latest returns, and together they rebuild it |
| `SensorController.PartEndpointsThrowBeforeFirstReading` | electronic-side/MqttRestApp/src/main/java/com/tracksecure/mqttrestapp/controller/SensorController.java:26-40 | on an empty cache /sensor/latest answers 200 with a null body while /sensor/dht and /sensor/gps throw |
| `SensorController.GetDhtDataOrEmpty` | electronic-side/MqttRestApp/src/main/java/com/tracksecure/mqttrestapp/controller/SensorController.java:31-35 | corrected /sensor/dht: always 200, null body on an empty cache, the same response as the original whenever the original returns |
| `SensorController.GetGpsDataOrEmpty` | electronic-side/MqttRestApp/src/main/java/com/tracksecure/mqttrestapp/controller/SensorController.java:37-41 | corrected /sensor/gps: always 200, null body on an empty cache, the same response as the original whenever the original returns |
| `SensorController.CorrectedPartsRebuildLatest` | electronic-side/MqttRestApp/src/main/java/com/tracksecure/mqttrestapp/controller/SensorController.java:24-41 | the corrected part endpoints agree with /sensor/latest on every cache content, the empty one included |
| `Fanout.Send` | electronic-side/MqttRestApp/src/main/java/com/tracksecure/mqttrestapp/websocket/SensorWebSocketHandler.java:71-80 | a send appends exactly the frame when the session accepts it; otherwise the exception is caught and the session is unchanged; the log only grows |
| `Fanout.Broadcast` | electronic-side/MqttRestApp/src/main/java/com/tracksecure/mqttrestapp/websocket/SensorWebSocketHandler.java:63-85 | a broadcast never adds or removes sessions |
| `Fanout.Register` | electronic-side/MqttRestApp/src/main/java/com/tracksecure/mqttrestapp/websocket/SensorWebSocketHandler.java:27 | the session is registered, no other session is added, and the size grows by one only if the session was new |
| `Fanout.Unregister` | electronic-side/MqttRestApp/src/main/java/com/tracksecure/mqttrestapp/websocket/SensorWebSocketHandler.java:53 | the session is no longer registered, every other session stays, and the size drops by one only if the session was registered |
| `Fanout.RegisterThenUnregister` | electronic-side/MqttRestApp/src/main/java/com/tracksecure/mqttrestapp/websocket/SensorWebSocketHandler.java:26-55 | connecting and then closing a new session returns the registry to what it was |
| `Fanout.RegisterIsIdempotent` | electronic-side/MqttRestApp/src/main/java/com/tracksecure/mqttrestapp/websocket/SensorWebSocketHandler.java:22-27 | connecting an already registered session leaves the registry unchanged |
| `Fanout.BroadcastDelivery` | electronic-side/MqttRestApp/src/main/java/com/tracksecure/mqttrestapp/websocket/SensorWebSocketHandler.java:70-81 | a registered session receives the frame as one appended entry exactly when serialisation succeeded and the session is open and its send does not fail; otherwise it is unchanged |
| `Fanout.BroadcastAbortsWithoutPayload` | electronic-side/MqttRestApp/src/main/java/com/tracksecure/mqttrestapp/websocket/SensorWebSocketHandler.java:64-65 | when serialisation fails, no session receives anything |
| `Fanout.BroadcastSendsOneMessage` | electronic-side/MqttRestApp/src/main/java/com/tracksecure/mqttrestapp/websocket/SensorWebSocketHandler.java:65-74 | every session that receives a broadcast receives one and the same serialised frame |
| `Fanout.BroadcastIsolatesSessions` | electronic-side/MqttRestApp/src/main/java/com/tracksecure/mqttrestapp/websocket/SensorWebSocketHandler.java:70-81 | what one session receives does not depend on any other session, even one whose send throws or that is closed |
| `Fanout.AtRound` | electronic-side/MqttRestApp/src/main/java/com/tracksecure/mqttrestapp/websocket/SensorWebSocketHandler.java:70-72 | the transport flags a broadcast finds are set for the round; no session is added or removed |
| `Fanout.RoundDelivery` | electronic-side/MqttRestApp/src/main/java/com/tracksecure/mqttrestapp/websocket/SensorWebSocketHandler.java:70-81 | in one round, a session gets the round's frame appended exactly when the payload exists and the session is open and not failing at that round |
| `Fanout.BroadcastRun` | electronic-side/MqttRestApp/src/main/java/com/tracksecure/mqttrestapp/websocket/SensorWebSocketHandler.java:63-85 | a run of broadcasts never adds or removes sessions |
| `Fanout.Serialised` | electronic-side/MqttRestApp/src/main/java/com/tracksecure/mqttrestapp/websocket/SensorWebSocketHandler.java:64-66 | every frame in the list of serialised payloads is one of the payloads |
| `Fanout.BroadcastsArriveInOrder` | electronic-side/MqttRestApp/src/main/java/com/tracksecure/mqttrestapp/websocket/SensorWebSocketHandler.java:63-85 | over a run of broadcasts, a session receives exactly the serialised payloads of the rounds at which it accepted the send, once each and in broadcast order; a failed send at one round does not stop later rounds from reaching it |
| `Fanout.AlwaysAcceptingReceivesAll` | electronic-side/MqttRestApp/src/main/java/com/tracksecure/mqttrestapp/websocket/SensorWebSocketHandler.java:63-85 | a session that accepts at every round receives every payload that serialised |
| `Fanout.LastFrameIsLatestReading` | electronic-side/MqttRestApp/src/main/java/com/tracksecure/mqttrestapp/websocket/SensorWebSocketHandler.java:63-85 | after a run of broadcasts, the last frame of a session that accepted every send is the latest reading that serialised |
| `WebSocket.Session.constructor` | electronic-side/MqttRestApp/src/main/java/com/tracksecure/mqttrestapp/websocket/SensorWebSocketHandler.java:26 | a new connection has the given transport state and has received nothing |
| `WebSocket.Session.SendMessage` | electronic-side/MqttRestApp/src/main/java/com/tracksecure/mqttrestapp/websocket/SensorWebSocketHandler.java:74 | reports success exactly when the session accepts the send, and changes the session as `Fanout.Send` says |
| `WebSocket.PrimingPayload` | electronic-side/MqttRestApp/src/main/java/com/tracksecure/mqttrestapp/websocket/SensorWebSocketHandler.java:30-48 | a priming frame exists exactly when the lookup finds the service, the cache holds a reading and serialisation succeeds; it is then the serialised cached reading |
| `WebSocket.SensorWebSocketHandler.constructor` | electronic-side/MqttRestApp/src/main/java/com/tracksecure/mqttrestapp/websocket/SensorWebSocketHandler.java:22-23 | the registry starts empty, with the given serialiser |
| `WebSocket.SensorWebSocketHandler.AfterConnectionEstablished` | electronic-side/MqttRestApp/src/main/java/com/tracksecure/mqttrestapp/websocket/SensorWebSocketHandler.java:26-49 | the session is registered whatever the priming does; it receives exactly the priming frame if there is one and it accepts sends; no other session changes |
| `WebSocket.SensorWebSocketHandler.AfterConnectionClosed` | electronic-side/MqttRestApp/src/main/java/com/tracksecure/mqttrestapp/websocket/SensorWebSocketHandler.java:52-55 | only the closed session leaves the registry; every other session and every log is unchanged |
| `WebSocket.SensorWebSocketHandler.HandleTextMessage` | electronic-side/MqttRestApp/src/main/java/com/tracksecure/mqttrestapp/websocket/SensorWebSocketHandler.java:58-61 | a client frame changes neither the registry nor any delivery log |
| `WebSocket.SensorWebSocketHandler.BroadcastSensorData` | electronic-side/MqttRestApp/src/main/java/com/tracksecure/mqttrestapp/websocket/SensorWebSocketHandler.java:63-85 | the registry is unchanged and every registered session ends as `Fanout.Broadcast` of the one serialised payload says |

## Left out

- Concurrency: the `CopyOnWriteArraySet` registry and the interleaving of connect and close with a running broadcast are not modelled. Each operation runs atomically on a sequential set. The iteration order of the set is also not modelled: the broadcast loop picks sessions in any order, and its result does not depend on that order.
- The JSON format produced by the Jackson `ObjectMapper` is not modelled. Serialisation is the handler's `serialise` function, which may fail.
- Spring plumbing is not modelled: `TextWebSocketHandler` dispatch, `ResponseEntity` beyond status and body, `@CrossOrigin`, and the `ApplicationContextProvider.getBean` lookup. The lookup is the `ServiceLookup` parameter.
- The WebSocket transport is not modelled. `sendMessage` appends to the session's log or fails according to the session's oracle. The transport changes `isOpen` and the oracle outside the handler. The `Session` class has no operation for that change. The rounds of `Fanout.BroadcastRun` let both flags take any value at each broadcast.
- Logging is not modelled. No `log.*` call changes state.
- Floating point is not modelled. `double` values and `LocalDateTime` values are opaque.
- `toString` of `DhtData` and `GpsData` is not modelled, because it depends on double formatting. `GpsData.toString` labels longitude as "temperature" and latitude as "humidity".
- `DhtData` and `GpsData` setters are modelled as functions that return an updated copy. The source changes the part object in place. Because the `SensorData` getters hand out that shared object, such a change also alters the reading that holds it, including the cached one. That update in place and the aliasing are not captured.
- Lombok `@Builder` is not modelled, and neither are the builder's defaults. Only the no-args and all-args constructors are modelled.
- `MqttService` (ingestion and the latest-value cache), the client-side reconnect and fallback layer, and the dashboard are not part of this model. The controller endpoints take the cache content as an argument.

## Findings

| source | as written | input that shows it | evidently intended | confidence | as-written member | corrected member |
|---|---|---|---|---|---|---|
| electronic-side/MqttRestApp/src/main/java/com/tracksecure/mqttrestapp/controller/SensorController.java:33-34 | `/sensor/dht` and `/sensor/gps` call a getter on the cached reading without a null check | a request before the first reading is cached: the cache is empty, and the endpoints throw `NullPointerException` while `/sensor/latest` answers 200 | a defined answer for the empty cache, such as 200 with a null body as `/sensor/latest` gives | medium, not executed | `SensorController.PartEndpointsThrowBeforeFirstReading` | `SensorController.GetDhtDataOrEmpty` |
