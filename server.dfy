/** Model of the relay server's connection registry and broadcast dispatch
    (server/server.go).

    The websocket transport is abstracted: a connection is identified by a
    ConnId, the outcome of a read, a dial or an upgrade is an input of the
    step that performs it, and the outcome of a write is given as the set of
    connections whose write fails. What the transport does to a connection
    (a write attempted, a Close) is recorded in ghost state. Every section the
    source runs under `s.mu` is one atomic method of class Server. */
module RelayServer {

  newtype byte = b: int | 0 <= b < 256

  /** A websocket message payload: opaque bytes (Go's []byte). */
  type Message = seq<byte>

  /** The identity of a *websocket.Conn. */
  type ConnId = nat

  datatype Option<T> = None | Some(value: T)

  // ---------------------------------------------------------------------
  // Payloads
  // ---------------------------------------------------------------------

  /** The simulated score that broadcastScores sends (server.go:193). */
  const ScoreText: string := "Live Score: India 120/3 in 15 overs"

  /** []byte(ScoreText): the text is ASCII, so one byte per character. */
  const ScorePayload: Message :=
    [76, 105, 118, 101, 32, 83, 99, 111, 114, 101, 58, 32, 73, 110, 100, 105, 97, 32,
     49, 50, 48, 47, 51, 32, 105, 110, 32, 49, 53, 32, 111, 118, 101, 114, 115]

  lemma ScorePayloadSpellsText()
    ensures |ScorePayload| == |ScoreText|
    ensures forall i | 0 <= i < |ScoreText| :: ScorePayload[i] as int == ScoreText[i] as int
  {
  }

  // ---------------------------------------------------------------------
  // The admin endpoint's status decision
  // ---------------------------------------------------------------------

  const MethodPost: string := "POST"
  const StatusOK: int := 200
  const StatusBadRequest: int := 400
  const StatusMethodNotAllowed: int := 405

  /** What became of the request body: it did not decode as a score, or it
      did and marshalling the score back to JSON gave these bytes (None when
      json.Marshal fails). */
  datatype Decoding = Malformed | Score(json: Option<Message>)

  datatype AdminRequest = AdminRequest(httpMethod: string, body: Decoding)

  /** The HTTP status written back and the message handed to the
      dispatcher, if any. */
  datatype AdminResponse = AdminResponse(status: int, submitted: Option<Message>)

  function AdminDecision(req: AdminRequest): (r: AdminResponse)
    ensures r.status == StatusMethodNotAllowed <==> req.httpMethod != MethodPost
    ensures r.status == StatusBadRequest <==> req.httpMethod == MethodPost && req.body.Malformed?
    ensures r.status == StatusOK <==> req.httpMethod == MethodPost && req.body.Score?
    ensures r.submitted.Some? ==> r.status == StatusOK
    ensures r.status == StatusOK ==> r.submitted == req.body.json
  {
    if req.httpMethod != MethodPost then
      AdminResponse(StatusMethodNotAllowed, None)
    else
      match req.body
      case Malformed => AdminResponse(StatusBadRequest, None)
      case Score(json) => AdminResponse(StatusOK, json)
  }

  /** A well-formed POST whose score marshals hands exactly that message to
      the dispatcher and answers 200; every other request hands over
      nothing. */
  lemma AdminSubmitsExactlyOnce(req: AdminRequest)
    ensures AdminDecision(req).submitted.Some? <==>
              req.httpMethod == MethodPost && req.body.Score? && req.body.json.Some?
    ensures AdminDecision(req).submitted.Some? ==>
              AdminDecision(req).status == StatusOK && AdminDecision(req).submitted.value == req.body.json.value
  {
  }

  // ---------------------------------------------------------------------
  // Write logs
  // ---------------------------------------------------------------------

  /** Per connection, the messages a write was attempted with, in order. */
  type WriteLog = map<ConnId, seq<Message>>

  function History(log: WriteLog, c: ConnId): seq<Message>
  {
    if c in log then log[c] else []
  }

  /** The log after one write of `m` to each connection in `targets`. */
  function Written(log: WriteLog, targets: set<ConnId>, m: Message): (r: WriteLog)
    ensures r.Keys == log.Keys + targets
  {
    map c | c in log.Keys + targets :: History(log, c) + (if c in targets then [m] else [])
  }

  /** A sweep over `targets` adds `m` exactly once to the history of each
      target and leaves every other history as it was. */
  lemma WrittenExactlyOnce(log: WriteLog, targets: set<ConnId>, m: Message, c: ConnId)
    ensures c in targets ==> History(Written(log, targets, m), c) == History(log, c) + [m]
    ensures c !in targets ==> History(Written(log, targets, m), c) == History(log, c)
  {
  }

  /** Writing to one more target extends a partial sweep. */
  lemma WrittenStep(log: WriteLog, done: set<ConnId>, c: ConnId, m: Message)
    requires c !in done
    ensures Written(log, done + {c}, m) == Written(log, done, m)[c := History(Written(log, done, m), c) + [m]]
  {
    var after := Written(log, done + {c}, m);
    var updated := Written(log, done, m)[c := History(Written(log, done, m), c) + [m]];
    assert after.Keys == updated.Keys;
    forall k | k in after
      ensures after[k] == updated[k]
    {
    }
  }

  /** Writing to no connection leaves the log as it was. */
  lemma WrittenNothing(log: WriteLog, m: Message)
    ensures Written(log, {}, m) == log
  {
    var after := Written(log, {}, m);
    assert after.Keys == log.Keys;
    forall k | k in after
      ensures after[k] == log[k]
    {
    }
  }

  /** Two sweeps of the same message over disjoint sets of connections are
      one sweep over their union. */
  lemma WrittenTwice(log: WriteLog, first: set<ConnId>, second: set<ConnId>, m: Message)
    requires first !! second
    ensures Written(Written(log, first, m), second, m) == Written(log, first + second, m)
  {
    var twice := Written(Written(log, first, m), second, m);
    var once := Written(log, first + second, m);
    assert twice.Keys == once.Keys;
    forall k | k in twice
      ensures twice[k] == once[k]
    {
    }
  }

  /** The messages of `feed` at the positions `marks` leaves unmarked, in
      order: of what was swept to the clients, the part relayed from the
      queue rather than the score lines. */
  function Relayed(feed: seq<Message>, marks: seq<bool>): seq<Message>
    requires |feed| == |marks|
    decreases |feed|
  {
    if feed == [] then []
    else
      var n := |feed| - 1;
      Relayed(feed[..n], marks[..n]) + (if marks[n] then [] else [feed[n]])
  }

  /** Sweeping one more message extends the relayed part by that message,
      unless it is a score line. */
  lemma RelayedAppend(feed: seq<Message>, marks: seq<bool>, m: Message, mark: bool)
    requires |feed| == |marks|
    ensures Relayed(feed + [m], marks + [mark]) == Relayed(feed, marks) + (if mark then [] else [m])
  {
    assert (feed + [m])[..|feed|] == feed;
    assert (marks + [mark])[..|marks|] == marks;
  }

  /** The relayed part of a feed is that of a prefix followed by that of
      the rest. */
  lemma {:induction false} RelayedSplit(feed: seq<Message>, marks: seq<bool>, j: nat)
    requires |feed| == |marks| && j <= |feed|
    ensures Relayed(feed, marks) == Relayed(feed[..j], marks[..j]) + Relayed(feed[j..], marks[j..])
    decreases |feed|
  {
    if j < |feed| {
      var n := |feed| - 1;
      RelayedSplit(feed[..n], marks[..n], j);
      assert feed[..n][..j] == feed[..j] && marks[..n][..j] == marks[..j];
      assert feed[j..][..n - j] == feed[..n][j..] && marks[j..][..n - j] == marks[..n][j..];
      assert feed[j..][n - j] == feed[n] && marks[j..][n - j] == marks[n];
    } else {
      assert feed[..j] == feed && marks[..j] == marks;
      assert feed[j..] == [] && marks[j..] == [];
    }
  }

  /** Every connection in `members` has been written exactly the messages
      of `feed` from the point at which it joined, in order. */
  ghost predicate FollowsFeed(members: set<ConnId>, joined: map<ConnId, nat>, log: WriteLog, feed: seq<Message>)
  {
    && members <= joined.Keys
    && forall c | c in members :: joined[c] <= |feed| && History(log, c) == feed[joined[c]..]
  }

  /** A sweep of `m` over the members (and over connections outside them)
      keeps every surviving member in step with the feed extended by `m`. */
  lemma SweepFollowsFeed(members: set<ConnId>, survivors: set<ConnId>, others: set<ConnId>,
                         joined: map<ConnId, nat>, log: WriteLog, feed: seq<Message>, m: Message)
    requires FollowsFeed(members, joined, log, feed)
    requires survivors <= members && members !! others
    ensures FollowsFeed(survivors, joined, Written(log, members + others, m), feed + [m])
  {
    forall c | c in survivors
      ensures joined[c] <= |feed + [m]| && History(Written(log, members + others, m), c) == (feed + [m])[joined[c]..]
    {
      WrittenExactlyOnce(log, members + others, m, c);
      assert (feed + [m])[joined[c]..] == feed[joined[c]..] + [m];
    }
  }

  /** A sweep that reaches none of the members leaves them in step with an
      unchanged feed. */
  lemma SweepElsewhere(members: set<ConnId>, targets: set<ConnId>,
                       joined: map<ConnId, nat>, log: WriteLog, feed: seq<Message>, m: Message)
    requires FollowsFeed(members, joined, log, feed)
    requires members !! targets
    ensures FollowsFeed(members, joined, Written(log, targets, m), feed)
  {
    forall c | c in members
      ensures History(Written(log, targets, m), c) == History(log, c)
    {
      WrittenExactlyOnce(log, targets, m, c);
    }
  }


  /** Members that leave do not disturb those that stay. */
  lemma FollowsFeedShrinks(members: set<ConnId>, stay: set<ConnId>,
                           joined: map<ConnId, nat>, log: WriteLog, feed: seq<Message>)
    requires FollowsFeed(members, joined, log, feed) && stay <= members
    ensures FollowsFeed(stay, joined, log, feed)
  {
  }

  /** Recording when some connection outside the members joined does not
      disturb them. */
  lemma FollowsFeedOtherJoins(members: set<ConnId>, joined: map<ConnId, nat>, log: WriteLog,
                              feed: seq<Message>, c: ConnId, start: nat)
    requires FollowsFeed(members, joined, log, feed) && c !in members
    ensures FollowsFeed(members, joined[c := start], log, feed)
  {
    forall d | d in members
      ensures joined[c := start][d] == joined[d]
    {
    }
  }

  /** A connection that was never written to joins in step with the feed
      from its current end. */
  lemma FollowsFeedJoins(members: set<ConnId>, joined: map<ConnId, nat>, log: WriteLog,
                         feed: seq<Message>, c: ConnId)
    requires FollowsFeed(members, joined, log, feed) && c !in members && c !in log
    ensures FollowsFeed(members + {c}, joined[c := |feed|], log, feed)
  {
    FollowsFeedOtherJoins(members, joined, log, feed, c, |feed|);
  }

  /** Setting one key of a map adds at most the new value to its values. */
  lemma ValuesAfterUpdate<K, V>(m: map<K, V>, k: K, v: V)
    ensures m[k := v].Values <= m.Values + {v}
  {
    forall x | x in m[k := v].Values
      ensures x in m.Values + {v}
    {
      var j :| j in m[k := v] && m[k := v][j] == x;
      if j != k {
        assert m[j] == x;
      }
    }
  }

  /** Deleting a key of a map adds nothing to its values. */
  lemma ValuesAfterRemove<K, V>(m: map<K, V>, k: K)
    ensures (m - {k}).Values <= m.Values
  {
    forall x | x in (m - {k}).Values
      ensures x in m.Values
    {
      var j :| j in m - {k} && (m - {k})[j] == x;
      assert m[j] == x;
    }
  }

  // ---------------------------------------------------------------------
  // The server's state and its atomic steps
  // ---------------------------------------------------------------------

  /** The fields of Server (server.go:32-37) and, beside them, what the
      transport has done: connections handed out by each kind of handler,
      connections closed, the write attempts on each connection, when each
      registered connection joined, and the messages submitted, taken by
      the dispatcher, and swept to the clients, with a mark on each of the
      latter that is a score line rather than a message from the queue. */
  datatype ServerState = ServerState(
    clients: set<ConnId>,
    peers: map<string, ConnId>,
    broadcast: seq<Message>,
    accepted: set<ConnId>,
    inbound: set<ConnId>,
    outbound: set<ConnId>,
    closed: set<ConnId>,
    attempts: WriteLog,
    joined: map<ConnId, nat>,
    submitted: seq<Message>,
    dispatched: seq<Message>,
    clientFeed: seq<Message>,
    scoreMarks: seq<bool>)

  function Issued(s: ServerState): set<ConnId>
  {
    s.accepted + s.inbound + s.outbound
  }

  /** A connection the transport hands out is a new one. */
  predicate IsNew(s: ServerState, conn: Option<ConnId>)
  {
    conn.Some? ==> conn.value !in Issued(s)
  }

  /** Each registered connection is a client connection or a dialled peer,
      no dialled connection sits under two addresses, no inbound peer
      connection has ever been written to, and no client is closed. */
  ghost predicate RegistryOk(s: ServerState)
  {
    && s.accepted !! s.inbound && s.accepted !! s.outbound && s.inbound !! s.outbound
    && s.clients <= s.accepted
    && s.peers.Values <= s.outbound
    && (forall a, b | a in s.peers && b in s.peers && s.peers[a] == s.peers[b] :: a == b)
    && s.closed <= Issued(s)
    && s.attempts.Keys <= Issued(s)
    && s.inbound !! s.attempts.Keys
    && s.clients !! s.closed
  }

  /** The queue is FIFO: what was taken followed by what waits is exactly
      what was submitted. The messages swept to clients are the score lines
      at the marked positions and, at the others, the dispatched messages in
      order. Every client has been written every message swept to clients
      since it connected, and every peer every dispatched message since it
      was dialled, each once and in that order. */
  ghost predicate FeedsOk(s: ServerState)
  {
    && s.dispatched + s.broadcast == s.submitted
    && |s.scoreMarks| == |s.clientFeed|
    && (forall i | 0 <= i < |s.clientFeed| && s.scoreMarks[i] :: s.clientFeed[i] == ScorePayload)
    && Relayed(s.clientFeed, s.scoreMarks) == s.dispatched
    && FollowsFeed(s.clients, s.joined, s.attempts, s.clientFeed)
    && FollowsFeed(s.peers.Values, s.joined, s.attempts, s.dispatched)
  }

  ghost predicate ValidState(s: ServerState)
  {
    RegistryOk(s) && FeedsOk(s)
  }

  /** NewServer (server.go:40-46). */
  function Init(): ServerState
  {
    ServerState({}, map[], [], {}, {}, {}, {}, map[], map[], [], [], [], [])
  }

  /** handleConnections up to its read loop (server.go:49-59). */
  function AfterAcceptClient(s: ServerState, upgraded: Option<ConnId>): ServerState
  {
    match upgraded
    case None => s
    case Some(c) =>
      s.(clients := s.clients + {c}, accepted := s.accepted + {c}, joined := s.joined[c := |s.clientFeed|])
  }

  /** handlePeerConnections up to its read loop (server.go:77-85). */
  function AfterAcceptPeer(s: ServerState, upgraded: Option<ConnId>): ServerState
  {
    match upgraded
    case None => s
    case Some(c) => s.(inbound := s.inbound + {c})
  }

  /** connectToPeer up to the registration (server.go:98-106). */
  function AfterDialPeer(s: ServerState, address: string, dialed: Option<ConnId>): ServerState
  {
    match dialed
    case None => s
    case Some(c) =>
      s.(peers := s.peers[address := c], outbound := s.outbound + {c}, joined := s.joined[c := |s.dispatched|])
  }

  /** `s.broadcast <- msg` (server.go:72, 93, 121, 165). */
  function AfterSubmit(s: ServerState, m: Message): ServerState
  {
    s.(broadcast := s.broadcast + [m], submitted := s.submitted + [m])
  }

  /** `delete(s.clients, conn)` (server.go:67-69). */
  function AfterRemoveClient(s: ServerState, c: ConnId): ServerState
  {
    s.(clients := s.clients - {c})
  }

  /** One turn of a client's read loop (server.go:63-73), with the deferred
      Close (server.go:55) when the read fails. */
  function AfterClientRead(s: ServerState, c: ConnId, read: Option<Message>): ServerState
  {
    match read
    case Some(m) => AfterSubmit(s, m)
    case None => AfterRemoveClient(s, c).(closed := s.closed + {c})
  }

  /** One turn of an inbound peer's read loop (server.go:87-94), with the
      deferred Close (server.go:83) when the read fails. */
  function AfterInboundPeerRead(s: ServerState, c: ConnId, read: Option<Message>): ServerState
  {
    match read
    case Some(m) => AfterSubmit(s, m)
    case None => s.(closed := s.closed + {c})
  }

  /** `delete(s.peers, peerAddress)` (server.go:116-118). */
  function AfterRemovePeer(s: ServerState, address: string): ServerState
  {
    s.(peers := s.peers - {address})
  }

  /** One turn of the read loop of the peer dialled at `address`
      (server.go:112-122), with the deferred Close (server.go:111) when the
      read fails. */
  function AfterOutboundPeerRead(s: ServerState, address: string, c: ConnId, read: Option<Message>): ServerState
  {
    match read
    case Some(m) => AfterSubmit(s, m)
    case None => AfterRemovePeer(s, address).(closed := s.closed + {c})
  }

  /** One turn of handleBroadcasts (server.go:128-148): the head of the
      queue written once to every client and every peer; failed clients
      closed and deleted, failed peers closed and kept. An empty queue means
      the dispatcher is still waiting. */
  function Dispatch(s: ServerState, failing: set<ConnId>): (ServerState, Option<Message>)
  {
    if s.broadcast == [] then (s, None)
    else
      var m := s.broadcast[0];
      var recipients := s.clients + s.peers.Values;
      (s.(broadcast := s.broadcast[1..],
          clients := s.clients - failing,
          closed := s.closed + recipients * failing,
          attempts := Written(s.attempts, recipients, m),
          dispatched := s.dispatched + [m],
          clientFeed := s.clientFeed + [m],
          scoreMarks := s.scoreMarks + [false]),
       Some(m))
  }

  /** One turn of broadcastScores (server.go:194-204). */
  function AfterBroadcastScores(s: ServerState, failing: set<ConnId>): ServerState
  {
    s.(clients := s.clients - failing,
       closed := s.closed + s.clients * failing,
       attempts := Written(s.attempts, s.clients, ScorePayload),
       clientFeed := s.clientFeed + [ScorePayload],
       scoreMarks := s.scoreMarks + [true])
  }

  /** handleAdminUpdates (server.go:169-186): the new state and the status. */
  function AdminUpdate(s: ServerState, req: AdminRequest): (ServerState, int)
  {
    var r := AdminDecision(req);
    (match r.submitted
     case Some(m) => AfterSubmit(s, m)
     case None => s,
     r.status)
  }

  // ---------------------------------------------------------------------
  // What the steps keep and promise
  // ---------------------------------------------------------------------

  /** NewServer yields no clients, no peers and an empty queue, and that
      state satisfies every invariant. */
  lemma InitIsEmpty()
    ensures ValidState(Init())
    ensures Init().clients == {} && Init().peers == map[] && Init().broadcast == []
  {
  }

  /** Registering a client adds exactly that connection to `clients`; the
      peers and the queue are untouched. A failed upgrade changes nothing. */
  lemma AcceptClientAddsOnlyIt(s: ServerState, upgraded: Option<ConnId>)
    ensures upgraded.None? ==> AfterAcceptClient(s, upgraded) == s
    ensures upgraded.Some? ==> AfterAcceptClient(s, upgraded).clients - s.clients <= {upgraded.value}
    ensures upgraded.Some? ==> upgraded.value in AfterAcceptClient(s, upgraded).clients
    ensures s.clients <= AfterAcceptClient(s, upgraded).clients
    ensures AfterAcceptClient(s, upgraded).peers == s.peers
    ensures AfterAcceptClient(s, upgraded).broadcast == s.broadcast
  {
  }

  lemma AcceptClientKeepsValid(s: ServerState, upgraded: Option<ConnId>)
    requires ValidState(s) && IsNew(s, upgraded)
    ensures ValidState(AfterAcceptClient(s, upgraded))
  {
    if upgraded.Some? {
      var c := upgraded.value;
      FollowsFeedJoins(s.clients, s.joined, s.attempts, s.clientFeed, c);
      FollowsFeedOtherJoins(s.peers.Values, s.joined, s.attempts, s.dispatched, c, |s.clientFeed|);
    }
  }

  lemma AcceptPeerKeepsValid(s: ServerState, upgraded: Option<ConnId>)
    requires ValidState(s) && IsNew(s, upgraded)
    ensures ValidState(AfterAcceptPeer(s, upgraded))
  {
  }

  lemma DialPeerKeepsValid(s: ServerState, address: string, dialed: Option<ConnId>)
    requires ValidState(s) && IsNew(s, dialed)
    ensures ValidState(AfterDialPeer(s, address, dialed))
  {
    if dialed.Some? {
      var c := dialed.value;
      var t := AfterDialPeer(s, address, dialed);
      ValuesAfterUpdate(s.peers, address, c);
      var kept := s.peers.Values - (if address in s.peers then {s.peers[address]} else {});
      assert t.peers.Values <= kept + {c} by {
        forall v | v in t.peers.Values
          ensures v in kept + {c}
        {
          var a :| a in t.peers && t.peers[a] == v;
        }
      }
      FollowsFeedShrinks(s.peers.Values, kept, s.joined, s.attempts, s.dispatched);
      FollowsFeedJoins(kept, s.joined, s.attempts, s.dispatched, c);
      FollowsFeedShrinks(kept + {c}, t.peers.Values, t.joined, s.attempts, s.dispatched);
      FollowsFeedOtherJoins(s.clients, s.joined, s.attempts, s.clientFeed, c, |s.dispatched|);
    }
  }

  lemma SubmitKeepsValid(s: ServerState, m: Message)
    requires ValidState(s)
    ensures ValidState(AfterSubmit(s, m))
  {
    assert s.dispatched + (s.broadcast + [m]) == (s.dispatched + s.broadcast) + [m];
  }

  lemma RemoveClientKeepsValid(s: ServerState, c: ConnId)
    requires ValidState(s)
    ensures ValidState(AfterRemoveClient(s, c))
  {
    FollowsFeedShrinks(s.clients, s.clients - {c}, s.joined, s.attempts, s.clientFeed);
  }

  /** Removing a client that is already gone changes nothing. */
  lemma RemoveClientIdempotent(s: ServerState, c: ConnId)
    ensures c !in s.clients ==> AfterRemoveClient(s, c) == s
    ensures AfterRemoveClient(AfterRemoveClient(s, c), c) == AfterRemoveClient(s, c)
  {
    assert c !in s.clients ==> s.clients - {c} == s.clients;
  }

  lemma ClientReadKeepsValid(s: ServerState, c: ConnId, read: Option<Message>)
    requires ValidState(s) && c in s.accepted
    ensures ValidState(AfterClientRead(s, c, read))
  {
    match read
    case Some(m) => SubmitKeepsValid(s, m);
    case None => RemoveClientKeepsValid(s, c);
  }

  lemma InboundPeerReadKeepsValid(s: ServerState, c: ConnId, read: Option<Message>)
    requires ValidState(s) && c in s.inbound
    ensures ValidState(AfterInboundPeerRead(s, c, read))
  {
    if read.Some? {
      SubmitKeepsValid(s, read.value);
    }
  }

  lemma RemovePeerKeepsValid(s: ServerState, address: string)
    requires ValidState(s)
    ensures ValidState(AfterRemovePeer(s, address))
  {
    ValuesAfterRemove(s.peers, address);
    FollowsFeedShrinks(s.peers.Values, (s.peers - {address}).Values, s.joined, s.attempts, s.dispatched);
  }

  /** Removing a peer address that is already gone changes nothing. */
  lemma RemovePeerIdempotent(s: ServerState, address: string)
    ensures address !in s.peers ==> AfterRemovePeer(s, address) == s
  {
    assert address !in s.peers ==> s.peers - {address} == s.peers;
  }

  lemma OutboundPeerReadKeepsValid(s: ServerState, address: string, c: ConnId, read: Option<Message>)
    requires ValidState(s) && c in s.outbound
    ensures ValidState(AfterOutboundPeerRead(s, address, c, read))
  {
    match read
    case Some(m) => SubmitKeepsValid(s, m);
    case None => RemovePeerKeepsValid(s, address);
  }

  lemma DispatchKeepsValid(s: ServerState, failing: set<ConnId>)
    requires ValidState(s)
    ensures ValidState(Dispatch(s, failing).0)
  {
    if s.broadcast != [] {
      var m := s.broadcast[0];
      var peerConns := s.peers.Values;
      assert (s.dispatched + [m]) + s.broadcast[1..] == s.dispatched + s.broadcast;
      RelayedAppend(s.clientFeed, s.scoreMarks, m, false);
      SweepFollowsFeed(s.clients, s.clients - failing, peerConns, s.joined, s.attempts, s.clientFeed, m);
      assert peerConns + s.clients == s.clients + peerConns;
      SweepFollowsFeed(peerConns, peerConns, s.clients, s.joined, s.attempts, s.dispatched, m);
    }
  }

  lemma BroadcastScoresKeepsValid(s: ServerState, failing: set<ConnId>)
    requires ValidState(s)
    ensures ValidState(AfterBroadcastScores(s, failing))
  {
    assert s.clients + {} == s.clients;
    RelayedAppend(s.clientFeed, s.scoreMarks, ScorePayload, true);
    SweepFollowsFeed(s.clients, s.clients - failing, {}, s.joined, s.attempts, s.clientFeed, ScorePayload);
    SweepElsewhere(s.peers.Values, s.clients, s.joined, s.attempts, s.dispatched, ScorePayload);
  }

  lemma AdminUpdateKeepsValid(s: ServerState, req: AdminRequest)
    requires ValidState(s)
    ensures ValidState(AdminUpdate(s, req).0)
  {
    if AdminDecision(req).submitted.Some? {
      SubmitKeepsValid(s, AdminDecision(req).submitted.value);
    }
  }

  /** One dispatch takes the oldest message and makes exactly one write
      attempt of it to each client and each peer present when it began (the
      sender included), and none to any other connection. Clients whose
      write failed are closed and gone; peers whose write failed are closed
      but keep their entry. */
  lemma DispatchSweepsOnce(s: ServerState, failing: set<ConnId>, c: ConnId)
    requires s.broadcast != []
    ensures Dispatch(s, failing).1 == Some(s.broadcast[0])
    ensures Dispatch(s, failing).0.broadcast == s.broadcast[1..]
    ensures c in s.clients + s.peers.Values ==>
              History(Dispatch(s, failing).0.attempts, c) == History(s.attempts, c) + [s.broadcast[0]]
    ensures c !in s.clients + s.peers.Values ==>
              History(Dispatch(s, failing).0.attempts, c) == History(s.attempts, c)
    ensures Dispatch(s, failing).0.clients == s.clients - failing
    ensures Dispatch(s, failing).0.peers == s.peers
    ensures Dispatch(s, failing).0.closed == s.closed + (s.clients + s.peers.Values) * failing
  {
    WrittenExactlyOnce(s.attempts, s.clients + s.peers.Values, s.broadcast[0], c);
  }

  /** Which peers fail never matters to the clients, and which clients fail
      never matters to the peers: a failed peer write neither removes nor
      closes a client, and a failed client write closes no peer. */
  lemma FailuresStayApart(s: ServerState, failing: set<ConnId>)
    requires ValidState(s)
    ensures Dispatch(s, failing).0.clients == Dispatch(s, failing - s.peers.Values).0.clients
    ensures Dispatch(s, failing).0.closed * s.clients == Dispatch(s, failing - s.peers.Values).0.closed * s.clients
    ensures Dispatch(s, failing).0.closed * s.peers.Values == Dispatch(s, failing - s.clients).0.closed * s.peers.Values
  {
    if s.broadcast != [] {
      assert s.clients !! s.peers.Values;
      assert s.clients - failing == s.clients - (failing - s.peers.Values);
    }
  }

  /** One score turn writes the score line exactly once to each client
      present when it began and to no other connection; `clients` loses
      exactly the clients whose write failed, only those are closed, and the
      peers and the queue are untouched. */
  lemma ScoreTurnSweepsClients(s: ServerState, failing: set<ConnId>, c: ConnId)
    ensures c in s.clients ==>
              History(AfterBroadcastScores(s, failing).attempts, c) == History(s.attempts, c) + [ScorePayload]
    ensures c !in s.clients ==>
              History(AfterBroadcastScores(s, failing).attempts, c) == History(s.attempts, c)
    ensures AfterBroadcastScores(s, failing).clients == s.clients - failing
    ensures AfterBroadcastScores(s, failing).closed == s.closed + s.clients * failing
    ensures AfterBroadcastScores(s, failing).peers == s.peers
    ensures AfterBroadcastScores(s, failing).broadcast == s.broadcast
  {
    WrittenExactlyOnce(s.attempts, s.clients, ScorePayload, c);
  }

  /** A peer has been written exactly the submitted messages the dispatcher
      took after the peer was dialled, in submission order. */
  lemma PeerSeesSubmissionsInOrder(s: ServerState, c: ConnId)
    requires ValidState(s) && c in s.peers.Values
    ensures s.joined[c] <= |s.dispatched| <= |s.submitted|
    ensures History(s.attempts, c) == s.submitted[s.joined[c]..|s.dispatched|]
  {
    assert s.submitted[..|s.dispatched|] == s.dispatched;
  }

  /** The dispatcher always takes the oldest message not yet taken: the
      next one in submission order. */
  lemma {:induction false} DispatchTakesOldest(s: ServerState, failing: set<ConnId>)
    requires ValidState(s) && s.broadcast != []
    ensures |s.dispatched| < |s.submitted|
    ensures Dispatch(s, failing).1 == Some(s.submitted[|s.dispatched|])
    ensures Dispatch(s, failing).0.dispatched == s.submitted[..|s.dispatched| + 1]
  {
    assert s.submitted[|s.dispatched|] == (s.dispatched + s.broadcast)[|s.dispatched|];
    assert s.submitted[..|s.dispatched| + 1] == s.dispatched + [s.broadcast[0]];
  }

  lemma AppendHeadThenTail<T>(h: seq<T>, q: seq<T>)
    requires q != []
    ensures (h + [q[0]]) + q[1..] == h + q
  {
    assert [q[0]] + q[1..] == q;
  }

  /** Successive turns of handleBroadcasts, one per set of failing
      connections. */
  function DispatchAll(s: ServerState, failings: seq<set<ConnId>>): ServerState
    decreases |failings|
  {
    if failings == [] then s else DispatchAll(Dispatch(s, failings[0]).0, failings[1..])
  }

  /** Draining the queue writes every waiting message to a client that
      stays, in queue order. */
  lemma {:induction false} DrainWritesQueue(s: ServerState, failings: seq<set<ConnId>>, c: ConnId)
    requires |failings| == |s.broadcast|
    requires c in s.clients && forall i | 0 <= i < |failings| :: c !in failings[i]
    ensures DispatchAll(s, failings).broadcast == []
    ensures c in DispatchAll(s, failings).clients
    ensures History(DispatchAll(s, failings).attempts, c) == History(s.attempts, c) + s.broadcast
    decreases |failings|
  {
    if failings != [] {
      var t := Dispatch(s, failings[0]).0;
      var rest := failings[1..];
      assert DispatchAll(s, failings) == DispatchAll(t, rest);
      DispatchSweepsOnce(s, failings[0], c);
      assert c in t.clients && t.broadcast == s.broadcast[1..];
      assert History(t.attempts, c) == History(s.attempts, c) + [s.broadcast[0]];
      assert forall i | 0 <= i < |rest| :: rest[i] == failings[i + 1];
      DrainWritesQueue(t, rest, c);
      assert History(DispatchAll(s, failings).attempts, c) == (History(s.attempts, c) + [s.broadcast[0]]) + s.broadcast[1..];
      AppendHeadThenTail(History(s.attempts, c), s.broadcast);
    }
  }

  /** The sender is not excluded: a message a client sends comes back to
      that same client, after every message that was already waiting, once
      the dispatcher has drained the queue, unless the client's write failed
      on the way. */
  lemma {:induction false} ClientHearsItsOwnMessage(s: ServerState, c: ConnId, m: Message, failings: seq<set<ConnId>>)
    requires c in s.clients && |failings| == |s.broadcast| + 1
    requires forall i | 0 <= i < |failings| :: c !in failings[i]
    ensures History(DispatchAll(AfterClientRead(s, c, Some(m)), failings).attempts, c)
              == History(s.attempts, c) + s.broadcast + [m]
  {
    DrainWritesQueue(AfterClientRead(s, c, Some(m)), failings, c);
  }

  /** A client has been written the messages swept to clients since it
      connected: the score lines at the marked positions and, at the
      others, a contiguous run of the submitted messages taken by the
      dispatcher since then, in submission order. */
  lemma ClientSeesSubmissionsInOrder(s: ServerState, c: ConnId)
    requires ValidState(s) && c in s.clients
    ensures s.joined[c] <= |s.clientFeed| == |s.scoreMarks|
    ensures History(s.attempts, c) == s.clientFeed[s.joined[c]..]
    ensures forall i | s.joined[c] <= i < |s.clientFeed| && s.scoreMarks[i] :: s.clientFeed[i] == ScorePayload
    ensures var before := |Relayed(s.clientFeed[..s.joined[c]], s.scoreMarks[..s.joined[c]])|;
            before <= |s.dispatched| <= |s.submitted| &&
            Relayed(History(s.attempts, c), s.scoreMarks[s.joined[c]..]) == s.submitted[before..|s.dispatched|]
  {
    var j := s.joined[c];
    RelayedSplit(s.clientFeed, s.scoreMarks, j);
    var before := Relayed(s.clientFeed[..j], s.scoreMarks[..j]);
    assert s.dispatched[|before|..] == Relayed(s.clientFeed[j..], s.scoreMarks[j..]);
    assert s.submitted[..|s.dispatched|] == s.dispatched;
  }

  /** The admin handler enqueues at most one message, and only when it
      answers 200; on 405 and 400 the state is untouched. */
  lemma AdminEnqueuesOnlyOnSuccess(s: ServerState, req: AdminRequest)
    ensures AdminUpdate(s, req).1 != StatusOK ==> AdminUpdate(s, req).0 == s
    ensures AdminDecision(req).submitted.None? ==> AdminUpdate(s, req).0 == s
    ensures AdminDecision(req).submitted.Some? ==>
              AdminUpdate(s, req).0.broadcast == s.broadcast + [req.body.json.value]
    ensures AdminUpdate(s, req).0.clients == s.clients && AdminUpdate(s, req).0.peers == s.peers
  {
  }

  /** A client has been written every message swept to clients since it
      connected; an inbound peer has never been written to. */
  lemma WhoIsWritten(s: ServerState, c: ConnId)
    requires ValidState(s)
    ensures c in s.clients ==> History(s.attempts, c) == s.clientFeed[s.joined[c]..]
    ensures c in s.inbound ==> History(s.attempts, c) == []
  {
  }

  // ---------------------------------------------------------------------
  // The server object
  // ---------------------------------------------------------------------

  class Server {
    /** `clients` (server.go:33): the connected clients. */
    var clients: set<ConnId>
    /** `peers` (server.go:36): outbound peer connections by address. */
    var peers: map<string, ConnId>
    /** `broadcast` (server.go:34): messages handed to the dispatcher and
        not yet taken, oldest first. */
    var broadcast: seq<Message>

    ghost var accepted: set<ConnId>
    ghost var inbound: set<ConnId>
    ghost var outbound: set<ConnId>
    ghost var closed: set<ConnId>
    ghost var attempts: WriteLog
    ghost var joined: map<ConnId, nat>
    ghost var submitted: seq<Message>
    ghost var dispatched: seq<Message>
    ghost var clientFeed: seq<Message>
    ghost var scoreMarks: seq<bool>

    ghost function State(): ServerState
      reads this
    {
      ServerState(clients, peers, broadcast, accepted, inbound, outbound, closed,
                  attempts, joined, submitted, dispatched, clientFeed, scoreMarks)
    }

    ghost predicate Valid()
      reads this
    {
      ValidState(State())
    }

    /** NewServer (server.go:40-46). */
    constructor ()
      ensures Valid() && State() == Init()
    {
      clients, peers, broadcast := {}, map[], [];
      accepted, inbound, outbound, closed := {}, {}, {}, {};
      attempts, joined := map[], map[];
      submitted, dispatched, clientFeed, scoreMarks := [], [], [], [];
    }

    method AcceptClient(upgraded: Option<ConnId>)
      requires Valid() && IsNew(State(), upgraded)
      modifies this
      ensures Valid() && State() == AfterAcceptClient(old(State()), upgraded)
    {
      AcceptClientKeepsValid(State(), upgraded);
      if upgraded.Some? {
        var c := upgraded.value;
        accepted := accepted + {c};
        joined := joined[c := |clientFeed|];
        clients := clients + {c};
      }
    }

    method AcceptPeer(upgraded: Option<ConnId>)
      requires Valid() && IsNew(State(), upgraded)
      modifies this
      ensures Valid() && State() == AfterAcceptPeer(old(State()), upgraded)
    {
      AcceptPeerKeepsValid(State(), upgraded);
      if upgraded.Some? {
        inbound := inbound + {upgraded.value};
      }
    }

    method DialPeer(address: string, dialed: Option<ConnId>)
      requires Valid() && IsNew(State(), dialed)
      modifies this
      ensures Valid() && State() == AfterDialPeer(old(State()), address, dialed)
    {
      DialPeerKeepsValid(State(), address, dialed);
      if dialed.Some? {
        var c := dialed.value;
        outbound := outbound + {c};
        joined := joined[c := |dispatched|];
        peers := peers[address := c];
      }
    }

    method Submit(m: Message)
      requires Valid()
      modifies this
      ensures Valid() && State() == AfterSubmit(old(State()), m)
    {
      SubmitKeepsValid(State(), m);
      broadcast := broadcast + [m];
      submitted := submitted + [m];
    }

    method RemoveClient(c: ConnId)
      requires Valid()
      modifies this
      ensures Valid() && State() == AfterRemoveClient(old(State()), c)
    {
      RemoveClientKeepsValid(State(), c);
      clients := clients - {c};
    }

    method ClientRead(c: ConnId, read: Option<Message>)
      requires Valid() && c in accepted
      modifies this
      ensures Valid() && State() == AfterClientRead(old(State()), c, read)
    {
      ClientReadKeepsValid(State(), c, read);
      if read.Some? {
        Submit(read.value);
      } else {
        RemoveClient(c);
        closed := closed + {c};
      }
    }

    method InboundPeerRead(c: ConnId, read: Option<Message>)
      requires Valid() && c in inbound
      modifies this
      ensures Valid() && State() == AfterInboundPeerRead(old(State()), c, read)
    {
      InboundPeerReadKeepsValid(State(), c, read);
      if read.Some? {
        Submit(read.value);
      } else {
        closed := closed + {c};
      }
    }

    method RemovePeer(address: string)
      requires Valid()
      modifies this
      ensures Valid() && State() == AfterRemovePeer(old(State()), address)
    {
      RemovePeerKeepsValid(State(), address);
      peers := peers - {address};
    }

    method OutboundPeerRead(address: string, c: ConnId, read: Option<Message>)
      requires Valid() && c in outbound
      modifies this
      ensures Valid() && State() == AfterOutboundPeerRead(old(State()), address, c, read)
    {
      OutboundPeerReadKeepsValid(State(), address, c, read);
      if read.Some? {
        Submit(read.value);
      } else {
        RemovePeer(address);
        closed := closed + {c};
      }
    }

    /** The client half of a sweep (server.go:132-139, 195-203): `range`
        over the clients, one write of `m` to each, a client whose write
        fails closed and deleted on the spot. */
    method SweepClients(m: Message, failing: set<ConnId>)
      modifies this`clients, this`closed, this`attempts
      ensures clients == old(clients) - failing
      ensures closed == old(closed) + old(clients) * failing
      ensures attempts == Written(old(attempts), old(clients), m)
    {
      var pending := clients;
      ghost var done: set<ConnId> := {};
      WrittenNothing(attempts, m);
      while pending != {}
        invariant pending !! done && pending + done == old(clients)
        invariant clients == old(clients) - done * failing
        invariant closed == old(closed) + done * failing
        invariant attempts == Written(old(attempts), done, m)
        decreases pending
      {
        var c :| c in pending;
        WrittenStep(old(attempts), done, c, m);
        attempts := attempts[c := History(attempts, c) + [m]];
        if c in failing {
          closed := closed + {c};
          clients := clients - {c};
        }
        pending := pending - {c};
        done := done + {c};
      }
    }

    /** The peer half of a sweep (server.go:141-147): one write of `m` to
        each peer connection, a peer whose write fails closed but kept.
        Ranging over the values of `peers`, which Valid keeps distinct,
        makes the same writes as ranging over its entries. */
    method SweepPeers(m: Message, failing: set<ConnId>)
      modifies this`closed, this`attempts
      ensures closed == old(closed) + peers.Values * failing
      ensures attempts == Written(old(attempts), peers.Values, m)
    {
      var pending := peers.Values;
      ghost var done: set<ConnId> := {};
      WrittenNothing(attempts, m);
      while pending != {}
        invariant pending !! done && pending + done == peers.Values
        invariant closed == old(closed) + done * failing
        invariant attempts == Written(old(attempts), done, m)
        decreases pending
      {
        var c :| c in pending;
        WrittenStep(old(attempts), done, c, m);
        attempts := attempts[c := History(attempts, c) + [m]];
        if c in failing {
          closed := closed + {c};
        }
        pending := pending - {c};
        done := done + {c};
      }
    }

    /** The locked sweep of handleBroadcasts (server.go:130-148): the
        clients, then the peers. */
    method SweepAll(m: Message, failing: set<ConnId>)
      requires clients !! peers.Values
      modifies this`clients, this`closed, this`attempts
      ensures clients == old(clients) - failing
      ensures closed == old(closed) + (old(clients) + peers.Values) * failing
      ensures attempts == Written(old(attempts), old(clients) + peers.Values, m)
    {
      SweepClients(m, failing);
      SweepPeers(m, failing);
      WrittenTwice(old(attempts), old(clients), peers.Values, m);
    }

    /** One turn of handleBroadcasts (server.go:128-148). */
    method DispatchStep(failing: set<ConnId>) returns (sent: Option<Message>)
      requires Valid()
      modifies this
      ensures (State(), sent) == Dispatch(old(State()), failing)
      ensures Valid()
    {
      DispatchKeepsValid(State(), failing);
      if broadcast == [] {
        return None;
      }
      var m := broadcast[0];
      broadcast := broadcast[1..];
      SweepAll(m, failing);
      dispatched := dispatched + [m];
      clientFeed := clientFeed + [m];
      scoreMarks := scoreMarks + [false];
      sent := Some(m);
    }

    /** One turn of broadcastScores (server.go:194-204). */
    method BroadcastScoresStep(failing: set<ConnId>)
      requires Valid()
      modifies this
      ensures Valid() && State() == AfterBroadcastScores(old(State()), failing)
    {
      BroadcastScoresKeepsValid(State(), failing);
      SweepClients(ScorePayload, failing);
      clientFeed := clientFeed + [ScorePayload];
      scoreMarks := scoreMarks + [true];
    }

    /** handleAdminUpdates (server.go:169-186) with UpdateAndBroadcastScore
        (server.go:153-166). */
    method HandleAdminUpdate(req: AdminRequest) returns (status: int)
      requires Valid()
      modifies this
      ensures Valid() && (State(), status) == AdminUpdate(old(State()), req)
    {
      AdminUpdateKeepsValid(State(), req);
      var r := AdminDecision(req);
      if r.submitted.Some? {
        Submit(r.submitted.value);
      }
      status := r.status;
    }
  }
}
