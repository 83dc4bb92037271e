# Broadcast relay server: registry and dispatch model

This project models the core of a small Go relay server. Its clients and peer
servers talk to it over websockets. Every message a client or a peer sends is
put on one broadcast queue. A dispatcher takes messages off that queue one at a
time and writes each to every connected client and to every peer the server
dialled. An admin endpoint turns a posted cricket score into one more queued
message, and a second loop writes a fixed score line to the clients.

`server.dfy` (module `RelayServer`) holds the server:
- The three fields of `Server` become the real fields of class `RelayServer.Server`:
  - `clients`, a set of connection ids;
  - `peers`, a map from address to connection id;
  - `broadcast`, the queue as a sequence, oldest first.
- Ghost fields record what the websocket transport did:
  - the write attempts on each connection, in order;
  - the connections that were closed;
  - the connections each handler was handed;
  - when each registered connection joined;
  - the messages submitted, dispatched, and swept to clients, with a mark on each score line among the latter.
- Each section the source runs under the mutex is one method. Each read-loop turn is one method too.
- Each method that models a whole locked section or read-loop turn is proved against a pure transition function on `ServerState` (`AfterAcceptClient`, `Dispatch`, `AdminUpdate`, …). It also keeps `Valid()`, the invariant that every transition lemma preserves. The sweep loops `SweepClients`, `SweepPeers` and `SweepAll` are the exception: they are parts of a locked section, need no invariant, and are proved against the write-log function `Written`. The invariant says:
  - the three kinds of connection are disjoint;
  - no dialled connection is filed under two addresses;
  - inbound peers are never written to;
  - no live client is closed;
  - the queue is FIFO (`dispatched + broadcast == submitted`);
  - what was swept to the clients is the score lines at the marked positions and the dispatched messages, in order, at the others;
  - every client and every peer has been written exactly its feed from the point it joined, in order.

`launcher.dfy` (module `Launcher`) holds the start-up logic of `main.go`:
- the flag defaults;
- the peer list built from `-peers`, as Go's `strings.Split` on `,`;
- the three-way mode switch.

The model follows the code where it departs from a relay's usual design:
- The sender is not excluded from the sweep, so a client's message comes back to it.
- Peers that connect in are never registered, so they are never written to.
- A peer whose write fails is closed but keeps its entry in `peers`.

## Model

| member | source | states |
|---|---|---|
| RelayServer.Init | server/server.go:40-46 | the state of a new server: no clients, no peers, an empty queue, nothing written |
| RelayServer.AfterAcceptClient | server/server.go:49-59 | a successful upgrade adds the connection to `clients`; a failed one changes nothing |
| RelayServer.AfterAcceptPeer | server/server.go:77-85 | an inbound peer connection is recorded as handed out and put in no registry |
| RelayServer.AfterDialPeer | server/server.go:98-106 | a successful dial files the connection under its address; a failed one changes nothing |
| RelayServer.AfterSubmit | server/server.go:72 | `s.broadcast <- msg` appends the message to the queue |
| RelayServer.AfterRemoveClient | server/server.go:67-69 | `delete(s.clients, conn)` |
| RelayServer.AfterClientRead | server/server.go:55-73 | a client read enqueues the message, or deletes and closes the client |
| RelayServer.AfterInboundPeerRead | server/server.go:83-94 | an inbound peer read enqueues the message, or closes the connection |
| RelayServer.AfterRemovePeer | server/server.go:116-118 | `delete(s.peers, peerAddress)` |
| RelayServer.AfterOutboundPeerRead | server/server.go:111-122 | a dialled peer's read enqueues the message, or deletes the address and closes the connection |
| RelayServer.Dispatch | server/server.go:128-148 | one dispatcher turn: take the head, write it to every client and peer, delete and close failed clients, close failed peers |
| RelayServer.DispatchAll | server/server.go:128-149 | successive dispatcher turns, one per set of failing connections |
| RelayServer.AfterBroadcastScores | server/server.go:193-204 | one score turn: write the score line to every client, delete and close failed clients |
| RelayServer.AdminUpdate | server/server.go:153-186 | the admin handler's status and, on success, the enqueued score |
| RelayServer.Server.constructor | server/server.go:40-46 | a new server is in the initial state: no clients, no peers, an empty queue; the invariant holds |
| RelayServer.InitIsEmpty | server/server.go:40-46 | the initial state has empty `clients`, `peers` and `broadcast` and satisfies every invariant |
| RelayServer.Server.AcceptClient | server/server.go:49-59 | after an upgrade the new connection is registered as a client, joining the client feed at its current end; a failed upgrade changes nothing; the invariant is kept |
| RelayServer.AcceptClientAddsOnlyIt | server/server.go:57-59 | registering adds exactly that connection to `clients` and leaves `peers` and the queue unchanged |
| RelayServer.AcceptClientKeepsValid | server/server.go:49-59 | registering a fresh client keeps the registry and feed invariants |
| RelayServer.Server.AcceptPeer | server/server.go:77-85 | an inbound peer connection is handed out but registered nowhere |
| RelayServer.AcceptPeerKeepsValid | server/server.go:77-85 | accepting an inbound peer keeps the invariants |
| RelayServer.Server.DialPeer | server/server.go:98-106 | after a successful dial the connection is filed under its address, replacing any earlier entry; a failed dial changes nothing |
| RelayServer.DialPeerKeepsValid | server/server.go:98-106 | filing a new connection under an address, even one already present, keeps peer connections distinct and in step with the dispatched messages |
| RelayServer.Server.Submit | server/server.go:72 | a message read from any connection is appended, byte for byte, to the tail of the queue |
| RelayServer.SubmitKeepsValid | server/server.go:72 | appending to the queue keeps it FIFO with respect to what was submitted |
| RelayServer.Server.RemoveClient | server/server.go:67-69 | `delete(s.clients, conn)` removes exactly that connection |
| RelayServer.RemoveClientKeepsValid | server/server.go:67-69 | removing a client keeps the invariants |
| RelayServer.RemoveClientIdempotent | server/server.go:67-69 | removing an absent client changes nothing, and removing twice is removing once |
| RelayServer.Server.ClientRead | server/server.go:55-73 | one turn of a client's read loop enqueues the message, or on a read error deletes the client and closes its connection |
| RelayServer.ClientReadKeepsValid | server/server.go:63-73 | either outcome of a client read keeps the invariants |
| RelayServer.Server.InboundPeerRead | server/server.go:83-94 | one turn of an inbound peer's read loop enqueues the message, or on a read error closes the connection and touches no registry |
| RelayServer.InboundPeerReadKeepsValid | server/server.go:87-94 | either outcome of an inbound peer read keeps the invariants |
| RelayServer.Server.RemovePeer | server/server.go:116-118 | `delete(s.peers, peerAddress)` removes exactly that address |
| RelayServer.RemovePeerKeepsValid | server/server.go:116-118 | removing a peer address keeps the invariants |
| RelayServer.RemovePeerIdempotent | server/server.go:116-118 | removing an absent address changes nothing |
| RelayServer.Server.OutboundPeerRead | server/server.go:111-122 | one turn of a dialled peer's read loop enqueues the message, or on a read error deletes the address and closes the connection |
| RelayServer.OutboundPeerReadKeepsValid | server/server.go:112-122 | either outcome of a dialled peer's read keeps the invariants |
| RelayServer.Server.SweepClients | server/server.go:132-139 | the loop over clients writes the message once to every client present at the start, and closes and deletes exactly those whose write fails |
| RelayServer.Server.SweepPeers | server/server.go:141-147 | the loop over peers writes the message once to every peer connection and closes those whose write fails, leaving `peers` unchanged |
| RelayServer.Server.SweepAll | server/server.go:130-148 | the locked sweep writes the message once to every client and every peer present at the start |
| RelayServer.Server.DispatchStep | server/server.go:128-148 | one dispatcher turn takes the head of the queue and performs the sweep; with an empty queue it takes nothing; the invariant is kept |
| RelayServer.DispatchKeepsValid | server/server.go:128-148 | a dispatch keeps the queue FIFO and every client and peer in step with the messages it should have been written |
| RelayServer.DispatchSweepsOnce | server/server.go:129-147 | a dispatch takes the head and writes it exactly once to each client and peer present at the start, the sender included, and to no other connection; `clients` loses exactly the failed clients; `peers` is unchanged; exactly the failed recipients are closed |
| RelayServer.FailuresStayApart | server/server.go:133-146 | a failed peer write neither removes nor closes a client, and a failed client write closes no peer |
| RelayServer.DispatchTakesOldest | server/server.go:129 | the message taken is the oldest submitted message not yet dispatched |
| RelayServer.DrainWritesQueue | server/server.go:128-139 | draining the queue writes every waiting message, in queue order, to each client whose writes succeed |
| RelayServer.ClientHearsItsOwnMessage | server/server.go:63-139 | a client's own message is written back to that client after every message already waiting, once the queue is drained |
| RelayServer.ClientSeesSubmissionsInOrder | server/server.go:72-139 | a client has been written the score lines at marked positions and, at the others, a contiguous run of the dispatched submissions in submission order |
| RelayServer.RelayedSplit | server/server.go:132-139 | the relayed part of what was swept to clients splits at the point a client joined |
| RelayServer.PeerSeesSubmissionsInOrder | server/server.go:129-147 | a peer has been written exactly the submitted messages dispatched since it was dialled, in submission order |
| RelayServer.WhoIsWritten | server/server.go:77-139 | a client has been written every message swept to clients since it connected; an inbound peer has never been written to |
| RelayServer.Server.BroadcastScoresStep | server/server.go:193-204 | one score turn writes the fixed score line once to every client and closes and deletes the clients whose write fails; peers and the queue are unchanged |
| RelayServer.ScoreTurnSweepsClients | server/server.go:194-204 | a score turn writes the score line exactly once to each client present at the start and to no other connection; `clients` loses exactly the failed clients, only those are closed, and peers and queue are unchanged |
| RelayServer.BroadcastScoresKeepsValid | server/server.go:194-204 | a score turn keeps the invariants, including the peers' feed |
| RelayServer.ScorePayloadSpellsText | server/server.go:193 | the payload bytes are the score text, one byte per character |
| RelayServer.AdminDecision | server/server.go:153-186 | a non-POST request gets 405, a body that fails to decode gets 400, and anything else gets 200; a message is handed over only with 200, and it is the marshalled score |
| RelayServer.AdminSubmitsExactlyOnce | server/server.go:153-186 | a message is handed over exactly when the request is a POST whose body decodes and whose score marshals |
| RelayServer.AdminEnqueuesOnlyOnSuccess | server/server.go:153-186 | a 405 or 400, or a score that fails to marshal, leaves the state untouched; otherwise the marshalled score is appended to the queue and the registries are unchanged |
| RelayServer.AdminUpdateKeepsValid | server/server.go:169-186 | the admin handler keeps the invariants |
| RelayServer.Server.HandleAdminUpdate | server/server.go:169-186 | the handler answers the decided status and enqueues the decided message |
| RelayServer.Written | server/server.go:132-147 | a sweep's write log has as keys the old keys plus the targets |
| RelayServer.WrittenExactlyOnce | server/server.go:132-147 | a sweep adds the message exactly once to the history of each target and leaves every other connection's history unchanged |
| RelayServer.WrittenStep | server/server.go:132-133 | writing to one more connection extends a partial sweep by exactly that write |
| RelayServer.WrittenTwice | server/server.go:132-147 | a sweep of the clients followed by a sweep of the peers is one sweep of both |
| RelayServer.SweepFollowsFeed | server/server.go:132-147 | after a sweep each surviving member has been written the feed extended by the swept message |
| Launcher.DefaultsStartLonelyServer | main.go:14-28 | the default flags start the server on port 8080 with no peers; the default server URL is `ws://localhost:8080/ws` |
| Launcher.Split | main.go:26 | a split has one piece more than the input has commas, and no piece contains a comma |
| Launcher.JoinSplit | main.go:26 | joining the pieces with `,` rebuilds the input exactly |
| Launcher.SplitJoin | main.go:26 | comma-free pieces joined with `,` split back into exactly those pieces |
| Launcher.PeerList | main.go:24-27 | the list is empty exactly when the flag is empty; otherwise its pieces contain no comma, number the commas plus one, and joined with `,` rebuild the flag |
| Launcher.EmptyPiecesKept | main.go:26 | empty pieces are kept: `a,,b` names three peers and `,` names two |
| Launcher.SelectPlan | main.go:21-33 | mode `start` runs the server with the flag's port and peer list, `connect` runs the client with the server URL, and any other mode only reports an invalid mode |

## Left out

- The websocket transport (`Upgrade`, `Dial`, `ReadMessage`, `WriteMessage`, `Close`) is foreign library I/O. The outcome of an upgrade, a dial or a read is an input of the step. The outcome of the writes is the set of connections whose write fails. A write attempt and a Close are recorded in ghost state.
- A new connection is required to be one never handed out before. This models the identity of a fresh `*websocket.Conn`.
- Goroutines, `sync.Mutex` and blocking on the unbuffered channel are concurrency, and they are not modelled. Each locked section is one atomic method, and the channel is a FIFO queue. `RelayServer.Server.DispatchStep` on an empty queue returns `None` and changes nothing; the real dispatcher would block.
- Liveness is not modelled, and the source can deadlock. `UpdateAndBroadcastScore` takes `mu` (server/server.go:154) and then sends on the unbuffered channel (server/server.go:165). Suppose the dispatcher has just received a message (server/server.go:129) and is about to lock `mu` (server/server.go:130). The admin handler then holds `mu` and waits for the only receiver, and the dispatcher waits for `mu`. Neither can go on, and every later registry update (server/server.go:57, 67, 104, 116) blocks behind them. The model's steps are atomic and sequential, so it cannot show this.
- JSON decoding and `json.Marshal` of `CricketScore` are library behaviour. Whether the body decodes, and the marshalled bytes, are inputs. A marshal failure answers 200 but enqueues nothing, as the code does.
- HTTP routing, `Start`, `ListenAndServe`, `log.Fatalf`, logging and `time.Sleep` are plumbing and timing. `Start` dialling each peer on its own goroutine is not modelled as a loop; each dial is one `DialPeer` call, in any order. `broadcastScores` is never started by `Start`; its one iteration is modelled all the same.
- `client/client.go` is not part of this model. Neither is the `ConnectToServer` call made in the `connect` branch.
- A read-loop turn does not record that its loop has ended. After a read error, the model still admits further turns of the same handler. This admits more behaviours than the code has, and the invariants hold for all of them.
- `flag.Parse` is left out; the model starts from the values it yields.
- Go's map iteration order is unspecified, so the order of writes within one sweep is not stated. Recipients are a set.
- RelayServer.Server.SweepPeers: ranges over the connections in `peers` rather than its (address, connection) entries. The invariant keeps those connections distinct, so it makes the same writes.
- Dialling an address already in `peers` overwrites its entry. The older connection's read error would then delete the newer entry (server/server.go:116-118). The model shows the overwrite. The later deletion is one more `RemovePeer` of the same address.
