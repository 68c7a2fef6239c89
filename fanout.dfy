/**
 * The rules of push delivery, stated on values: what a send does to one
 * session, what a broadcast does to all registered sessions, and how the
 * registry changes on connect and close. The handler class in module
 * WebSocket is proved to follow these rules; the lemmas here state what the
 * rules promise.
 */
module Fanout {
  import opened Wrappers

  /** A serialised reading: the text of one WebSocket text frame. */
  type Message = string

  /**
   * What the handler can observe of one session: whether it is open,
   * whether its transport rejects a send (the send-failure oracle), and
   * the frames it has received so far, oldest first.
   */
  datatype Endpoint = Endpoint(isOpen: bool, sendFails: bool, sent: seq<Message>)

  /** A send succeeds only on an open session whose transport does not reject it. */
  predicate Accepts(e: Endpoint)
  {
    e.isOpen && !e.sendFails
  }

  /** One `sendMessage` call. A rejected send raises an exception and delivers nothing. */
  function Send(e: Endpoint, msg: Message): (r: Endpoint)
    ensures r.isOpen == e.isOpen && r.sendFails == e.sendFails
    ensures e.sent <= r.sent
    ensures Accepts(e) ==> r.sent == e.sent + [msg]
    ensures !Accepts(e) ==> r == e
  {
    if Accepts(e) then e.(sent := e.sent + [msg]) else e
  }

  /** Send a payload if there is one; `None` is a serialisation that failed, and then nothing is sent. */
  function Offer(e: Endpoint, payload: Option<Message>): Endpoint
  {
    match payload
    case None => e
    case Some(msg) => Send(e, msg)
  }

  /** Offer one serialised payload to every registered session. */
  function Broadcast<K>(view: map<K, Endpoint>, payload: Option<Message>): (r: map<K, Endpoint>)
    ensures r.Keys == view.Keys
  {
    map k | k in view :: Offer(view[k], payload)
  }

  /** Add a session to the registry; the registry is a set, so adding twice is adding once. */
  function Register<K>(registry: set<K>, k: K): (r: set<K>)
    ensures k in r && registry <= r
    ensures forall j :: j in r && j != k ==> j in registry
    ensures |r| == if k in registry then |registry| else |registry| + 1
  {
    var r := registry + {k};
    assert k in registry ==> r == registry;
    assert k !in registry ==> registry * {k} == {};
    r
  }

  /** Remove a session from the registry; removing an unregistered session changes nothing. */
  function Unregister<K>(registry: set<K>, k: K): (r: set<K>)
    ensures k !in r && r <= registry
    ensures forall j :: j in registry && j != k ==> j in r
    ensures |r| == if k in registry then |registry| - 1 else |registry|
  {
    var r := registry - {k};
    assert k !in registry ==> r == registry;
    assert k in registry ==> registry == r + {k} && r * {k} == {};
    r
  }

  /** Connecting and then closing a new session returns the registry to what it was. */
  lemma RegisterThenUnregister<K>(registry: set<K>, k: K)
    requires k !in registry
    ensures Unregister(Register(registry, k), k) == registry
  {
  }

  /** Connecting an already registered session leaves the registry unchanged. */
  lemma RegisterIsIdempotent<K>(registry: set<K>, k: K)
    ensures k in registry ==> Register(registry, k) == registry
    ensures Register(Register(registry, k), k) == Register(registry, k)
  {
  }

  /**
   * Who receives what: a registered session receives the payload, as one
   * frame appended to its log, exactly when the payload exists and the
   * session accepts sends; otherwise it is left as it was.
   */
  lemma BroadcastDelivery<K>(view: map<K, Endpoint>, payload: Option<Message>, k: K)
    requires k in view
    ensures Broadcast(view, payload)[k].isOpen == view[k].isOpen
    ensures Broadcast(view, payload)[k].sendFails == view[k].sendFails
    ensures payload.Some? && Accepts(view[k]) ==> Broadcast(view, payload)[k].sent == view[k].sent + [payload.value]
    ensures payload.None? || !Accepts(view[k]) ==> Broadcast(view, payload)[k] == view[k]
  {
  }

  /** A failed serialisation aborts the broadcast: no session receives anything. */
  lemma BroadcastAbortsWithoutPayload<K>(view: map<K, Endpoint>)
    ensures Broadcast(view, None) == view
  {
  }

  /** Every session that receives a broadcast receives one and the same frame. */
  lemma BroadcastSendsOneMessage<K>(view: map<K, Endpoint>, msg: Message, k: K, j: K)
    requires k in view && j in view
    requires Accepts(view[k]) && Accepts(view[j])
    ensures Broadcast(view, Some(msg))[k].sent[|view[k].sent|]
         == Broadcast(view, Some(msg))[j].sent[|view[j].sent|]
         == msg
  {
  }

  /**
   * Failure isolation: what a session receives does not depend on any other
   * session. Replacing session j by any other endpoint (one whose send fails,
   * one that is closed) leaves the outcome for k unchanged.
   */
  lemma BroadcastIsolatesSessions<K>(view: map<K, Endpoint>, payload: Option<Message>, k: K, j: K, other: Endpoint)
    requires k in view && k != j
    ensures Broadcast(view[j := other], payload)[k] == Broadcast(view, payload)[k]
  {
  }

  /**
   * The transport as one broadcast finds it: which sessions are open, which
   * reject a send at that moment, and the serialised reading (if any). The
   * transport changes between broadcasts outside the handler, so a session
   * whose send throws at one broadcast may accept the next one.
   */
  datatype Round<K> = Round(open: set<K>, failing: set<K>, payload: Option<Message>)

  /** Session k accepts the send of this round. */
  predicate AcceptsAt<K>(round: Round<K>, k: K)
  {
    k in round.open && k !in round.failing
  }

  /** The registered sessions with their transport flags as the round finds them; logs are untouched. */
  function AtRound<K>(view: map<K, Endpoint>, round: Round<K>): (r: map<K, Endpoint>)
    ensures r.Keys == view.Keys
  {
    map k | k in view :: view[k].(isOpen := k in round.open, sendFails := k in round.failing)
  }

  /** One broadcast of a run: session k gets the round's frame exactly when it accepts at that round. */
  lemma RoundDelivery<K>(view: map<K, Endpoint>, round: Round<K>, k: K)
    requires k in view
    ensures k in Broadcast(AtRound(view, round), round.payload)
    ensures Broadcast(AtRound(view, round), round.payload)[k].sent
         == view[k].sent + if round.payload.Some? && AcceptsAt(round, k) then [round.payload.value] else []
  {
    var tuned := AtRound(view, round);
    assert tuned[k] == view[k].(isOpen := k in round.open, sendFails := k in round.failing);
    BroadcastDelivery(tuned, round.payload, k);
  }

  /** A run of broadcasts, one per ingested reading, in arrival order. */
  function BroadcastRun<K>(view: map<K, Endpoint>, rounds: seq<Round<K>>): (r: map<K, Endpoint>)
    ensures r.Keys == view.Keys
    decreases |rounds|
  {
    if rounds == [] then view
    else BroadcastRun(Broadcast(AtRound(view, rounds[0]), rounds[0].payload), rounds[1..])
  }

  /** The frames session k should receive over a run: the serialised payloads of the rounds at which it accepted, in order. */
  function Received<K>(rounds: seq<Round<K>>, k: K): seq<Message>
    decreases |rounds|
  {
    if rounds == [] then []
    else (if rounds[0].payload.Some? && AcceptsAt(rounds[0], k) then [rounds[0].payload.value] else [])
         + Received(rounds[1..], k)
  }

  /** The payloads of a run, one per broadcast. */
  function Payloads<K>(rounds: seq<Round<K>>): (ps: seq<Option<Message>>)
    ensures |ps| == |rounds|
    ensures forall i :: 0 <= i < |rounds| ==> ps[i] == rounds[i].payload
  {
    seq(|rounds|, i requires 0 <= i < |rounds| => rounds[i].payload)
  }

  /** The payloads that serialised, in order. Every frame it lists is one of the payloads. */
  function Serialised(payloads: seq<Option<Message>>): (msgs: seq<Message>)
    ensures forall m :: m in msgs ==> Some(m) in payloads
    decreases |payloads|
  {
    if payloads == [] then []
    else (match payloads[0] case None => [] case Some(m) => [m]) + Serialised(payloads[1..])
  }

  /**
   * Over a run of broadcasts, session k receives exactly the serialised
   * payloads of the rounds at which it accepted the send, once each and in
   * the order of the broadcasts; a send that failed at one round does not
   * stop later rounds from reaching it.
   */
  lemma {:induction false} BroadcastsArriveInOrder<K>(view: map<K, Endpoint>, rounds: seq<Round<K>>, k: K)
    requires k in view
    ensures k in BroadcastRun(view, rounds)
    ensures BroadcastRun(view, rounds)[k].sent == view[k].sent + Received(rounds, k)
    decreases |rounds|
  {
    if rounds != [] {
      var next := Broadcast(AtRound(view, rounds[0]), rounds[0].payload);
      RoundDelivery(view, rounds[0], k);
      BroadcastsArriveInOrder(next, rounds[1..], k);
      ReceivedUnfolds(rounds, k, view[k].sent);
    }
  }

  /** Unfolding Received once, with a log in front. */
  lemma ReceivedUnfolds<K>(rounds: seq<Round<K>>, k: K, log: seq<Message>)
    requires rounds != []
    ensures log + (if rounds[0].payload.Some? && AcceptsAt(rounds[0], k) then [rounds[0].payload.value] else [])
                + Received(rounds[1..], k)
         == log + Received(rounds, k)
  {
  }

  /** A session that accepts at every round receives every payload that serialised. */
  lemma {:induction false} AlwaysAcceptingReceivesAll<K>(rounds: seq<Round<K>>, k: K)
    requires forall i :: 0 <= i < |rounds| ==> AcceptsAt(rounds[i], k)
    ensures Received(rounds, k) == Serialised(Payloads(rounds))
    decreases |rounds|
  {
    if rounds != [] {
      AlwaysAcceptingReceivesAll(rounds[1..], k);
      assert Payloads(rounds)[1..] == Payloads(rounds[1..]);
      assert Payloads(rounds)[0] == rounds[0].payload;
    }
  }

  /**
   * Last write wins on the push channel: after a run of broadcasts, the most
   * recent frame of a session that accepted every send is the latest reading
   * that serialised.
   */
  lemma {:induction false} LastFrameIsLatestReading<K>(view: map<K, Endpoint>, rounds: seq<Round<K>>, k: K)
    requires k in view
    requires forall i :: 0 <= i < |rounds| ==> AcceptsAt(rounds[i], k)
    requires Serialised(Payloads(rounds)) != []
    ensures k in BroadcastRun(view, rounds)
    ensures var log := BroadcastRun(view, rounds)[k].sent;
            var msgs := Serialised(Payloads(rounds));
            |log| > 0 && log[|log| - 1] == msgs[|msgs| - 1]
  {
    BroadcastsArriveInOrder(view, rounds, k);
    AlwaysAcceptingReceivesAll(rounds, k);
  }
}
