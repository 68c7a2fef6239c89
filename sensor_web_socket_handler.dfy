/**
 * `SensorWebSocketHandler`: the registry of open push connections, the
 * priming of a new connection with the cached reading, and the broadcast
 * of every new reading to all registered connections. Each operation runs
 * atomically; the concurrent set is modelled as a sequential one.
 */
module WebSocket {
  import opened Wrappers
  import opened SensorModel
  import opened Fanout

  /**
   * One WebSocket connection, owned by the transport. `isOpen` and
   * `sendFails` are the transport's state; `sent` is the log of frames the
   * connection has delivered to its client.
   */
  class Session {
    const id: string
    var isOpen: bool
    var sendFails: bool
    var sent: seq<Message>

    constructor (id: string, isOpen: bool, sendFails: bool)
      ensures this.id == id
      ensures State() == Endpoint(isOpen, sendFails, [])
    {
      this.id := id;
      this.isOpen := isOpen;
      this.sendFails := sendFails;
      this.sent := [];
    }

    /** What the handler can observe of this connection. */
    function State(): Endpoint
      reads this
    {
      Endpoint(isOpen, sendFails, sent)
    }

    /** `sendMessage`: delivers the frame, or reports (as `ok == false`) the exception it throws. */
    method SendMessage(msg: Message) returns (ok: bool)
      modifies this`sent
      ensures ok == Accepts(old(State()))
      ensures State() == Send(old(State()), msg)
    {
      ok := isOpen && !sendFails;
      if ok {
        sent := sent + [msg];
      }
    }
  }

  /**
   * Fetching the latest reading while a connection is primed: the service
   * lookup may throw, may find no service, or finds the service and reads
   * its cache (a reading, or null).
   */
  datatype ServiceLookup = LookupThrows | ServiceNull | Service(latest: Option<SensorData>)

  /** The frame a new connection is primed with, if any. */
  function PrimingPayload(lookup: ServiceLookup, serialise: SensorData -> Option<Message>): (p: Option<Message>)
    ensures p.Some? <==> lookup.Service? && lookup.latest.Some? && serialise(lookup.latest.value).Some?
    ensures p.Some? ==> p == serialise(lookup.latest.value)
  {
    match lookup
    case Service(Some(latest)) => serialise(latest)
    case _ => None
  }

  class SensorWebSocketHandler {
    var sessions: set<Session>
    /** The JSON serialiser (`objectMapper.writeValueAsString`); `None` is a serialisation that throws. */
    const serialise: SensorData -> Option<Message>

    constructor (serialise: SensorData -> Option<Message>)
      ensures sessions == {}
      ensures this.serialise == serialise
    {
      this.sessions := {};
      this.serialise := serialise;
    }

    /** Every registered connection with what it has received. */
    ghost function View(): map<Session, Endpoint>
      reads this, sessions
    {
      map s | s in sessions :: s.State()
    }

    /**
     * A connection is established: register it first, then try to prime it
     * with the cached reading. Every failure of the priming is caught, so the
     * registration stands whatever happens after it.
     */
    method AfterConnectionEstablished(session: Session, lookup: ServiceLookup)
      modifies this`sessions, session`sent
      ensures sessions == Register(old(sessions), session)
      ensures session.State() == Offer(old(session.State()), PrimingPayload(lookup, serialise))
      ensures View() == old(View())[session := Offer(old(session.State()), PrimingPayload(lookup, serialise))]
    {
      sessions := sessions + {session};
      match lookup {
        case LookupThrows =>
        case ServiceNull =>
        case Service(latest) =>
          if latest.Some? {
            var payload := serialise(latest.value);
            if payload.Some? {
              var ok := session.SendMessage(payload.value);
            }
          }
      }
    }

    /** A connection is closed: unregister it; nothing is sent. */
    method AfterConnectionClosed(session: Session)
      modifies this`sessions
      ensures sessions == Unregister(old(sessions), session)
      ensures View() == old(View()) - {session}
    {
      sessions := sessions - {session};
    }

    /** A frame from a client: the channel is push-only and the frame is only logged. */
    method HandleTextMessage(session: Session, message: string)
      ensures sessions == old(sessions)
      ensures View() == old(View())
    {
    }

    /**
     * Serialise the reading once and send the same frame to every registered
     * connection that is open; a connection whose send throws is skipped and
     * the loop goes on. If serialisation throws, nothing is sent.
     */
    method BroadcastSensorData(data: SensorData)
      modifies sessions`sent
      ensures sessions == old(sessions)
      ensures View() == Broadcast(old(View()), serialise(data))
    {
      var payload := serialise(data);
      if payload.None? {
        return;
      }
      var msg := payload.value;
      var pending := sessions;
      while pending != {}
        invariant pending <= sessions
        invariant forall s :: s in sessions && s !in pending ==> s.State() == Send(old(s.State()), msg)
        invariant forall s :: s in pending ==> s.State() == old(s.State())
        decreases pending
      {
        var s :| s in pending;
        if s.isOpen {
          var ok := s.SendMessage(msg);
        }
        pending := pending - {s};
      }
    }
  }
}
