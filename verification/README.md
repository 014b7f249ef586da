# dtp-server in Dafny

A model of the two state machines behind a watch-together server. Viewers
connect over websockets, submit video links to a shared queue and must all
start playback at the same moment.

- **The hub** (`DTPServer`) owns three things: the membership map from
  connection id to recipient, the set of ids that reported ready, and the
  FIFO queue of links. Each message handler (`Connect`, `Disconnect`,
  `Play`, `Skip`, `Ready2`, `Poll`) is a total function
  `Hub × command → Hub × outbox`. The outbox is the unordered set of sends
  made while iterating the membership map. The barrier rule lives in
  `Poll`: if a link is queued and `|members| == |ready|`, the hub drops the
  queue head, sends `Start` to every member and clears the ready set.
- **The session** (`DTPSession`) is the supervisor for one connection. Its
  local state is `{id, hb, playing}`. Each event is a pure function
  `Session × input × now → Session × hub commands × websocket frames × stopped`.
  The events are: the actor starting, a heartbeat tick, a hub broadcast to
  forward, a frame read from the socket, and a failed read. `Handle`
  follows a stopping step with the stopping hook, which always posts
  `Disconnect` for the session's own id.
- **The protocol types** (`C2S`, `S2C`, the notification structs and the hub
  command structs) are plain datatypes in module `Packets`.

Files: `wrappers.dfy` (Option), `packets.dfy`, `server.dfy`, `session.dfy`,
and `system.dfy`, which holds lemmas that feed a session's posted commands
to the hub.

Modelling decisions:
- A recipient is an opaque handle. The model only compares recipients for
  equality.
- Each send in an outbox is tagged with the membership entry it went
  through. Two ids that share a recipient therefore still give two sends,
  so the outbox is exactly the multiset of `do_send` calls.
- Time is a natural-number clock in nanoseconds. `SESSION_TIMEOUT` is 10 s.
  Elapsed time saturates at zero like
  `Instant::duration_since`.
- JSON decoding (after `trim`) and serialisation are the opaque functions
  of a `Codec` value. Either one may fail.
- Some behaviour looks unintended; the model keeps it as written:
  - `Disconnect` never removes the id from the ready set, so
    `ready ⊆ keys(members)` is not an invariant (`DisconnectKeepsStaleReady`).
    A stale ready id can open the barrier for a member that never got ready
    (`StaleReadyOpensBarrier`).
  - With no members and no ready ids, `Poll` still fires because `0 == 0`.
    It drops the queued link and sends nothing
    (`PollWithNoMembersStillPops`, `LastSessionTimeoutDropsLink`). One
    might expect the barrier to stay shut here.
  - `Play` broadcasts before it appends to the queue. Both orders give the
    same outcome.
  - `Connect` silently replaces an earlier entry for the same id.

## Model

| member | source | states |
|---|---|---|
| Server.Broadcast | src/server.rs:16-32 | every member gets exactly one copy of the event at its own recipient, and no non-member gets anything |
| Server.BroadcastSize | src/server.rs:98-100 | a broadcast makes exactly as many sends as there are members |
| Server.NotifyConnect | src/server.rs:16-20 | sends the connect notification once to each current member |
| Server.NotifyDisconnect | src/server.rs:22-26 | sends the disconnect notification once to each current member |
| Server.NotifySkip | src/server.rs:28-32 | sends Skip once to each current member |
| Server.HandleConnect | src/server.rs:43-47 | `id` now maps to the new recipient and replaces any earlier entry; other members are kept; ready set and queue are unchanged; every member of the enlarged map, the newcomer included, gets exactly one ConnectNotification |
| Server.HandleDisconnect | src/server.rs:53-57 | `id` is gone and nothing else changes (nothing at all if `id` was absent); ready set and queue are untouched; every remaining member is notified and `id` is not |
| Server.HandlePlay | src/server.rs:63-71 | the link is appended at the queue tail; members and ready set are unchanged; every current member gets `Play{link}` once |
| Server.HandleSkip | src/server.rs:77-79 | the hub is unchanged and every member gets Skip once |
| Server.HandleReady2 | src/server.rs:85-88 | the ready set gains `id` whether or not `id` is a member; nothing else changes and nothing is sent |
| Server.HandlePoll | src/server.rs:94-104 | if the barrier is open, the queue loses its head, the ready set is emptied and every member gets Start; otherwise the hub is unchanged and nothing is sent; the pop happens only on a non-empty queue |
| Server.Step | src/server.rs:39-105 | only Connect and Disconnect change membership, only Ready2 and Poll change the ready set, only Play and Poll change the queue; every send goes to a current member's recipient |
| Server.StepQueueIsSuffix | src/server.rs:63-104 | one command either appends its own link or drops the queue head |
| Server.RunQueueIsSuffix | src/server.rs:60-104 | after any command sequence, the queue is a suffix of the starting queue followed by every submitted link in order (FIFO) |
| Server.PollFiresIff | src/server.rs:94-104 | Poll pops the queue iff the barrier is open, and sends Start iff the barrier is open and someone is connected; a pop empties the ready set, shortens the queue by one and makes one send per member |
| Server.Ready2Idempotent | src/server.rs:85-88 | marking the same id ready twice equals marking it once |
| Server.DisconnectTwiceIsOnce | src/server.rs:53-57 | a second Disconnect for the same id changes nothing more |
| Server.DisconnectKeepsStaleReady | src/server.rs:53-57 | a ready member that disconnects stays in the ready set, which breaks `ready ⊆ members` |
| Server.StaleReadyOpensBarrier | src/server.rs:94-104 | a, b, c join; a and c get ready; c leaves; then after a Play the barrier is open although b never got ready |
| Server.PollWithNoMembersStillPops | src/server.rs:95-101 | with no members and no ready ids, Poll drops the head of a non-empty queue and sends nothing |
| Server.ConnectThenDisconnect | src/server.rs:43-57 | connecting an id and then disconnecting it leaves the membership as it was minus that id |
| Server.MembershipCommutes | src/server.rs:43-57 | two Connect/Disconnect commands for different ids give the same membership in either order |
| Server.RunConcat | src/server.rs:39-105 | running two command batches one after the other equals running their concatenation |
| Session.NewSession | src/main.rs:25-30 | a new session has the given id, was last heard from now, and is not playing |
| Session.Elapsed | src/session.rs:32 | elapsed time is `now - hb`, or zero when the clock reads earlier than `hb` |
| Session.OnTick | src/session.rs:31-44 | a timed-out tick (strictly more than 10 s of silence) posts one Disconnect for the session's own id, stops, and pings nobody; any other tick pings once and posts Poll iff the session is not playing |
| Session.OnStarted | src/session.rs:51-73 | a start whose send succeeds delivers Connect for the session's own id and address, with the notification naming that id; a failed send delivers nothing and the session stops |
| Session.OnOutbound | src/session.rs:89-98 | a broadcast is written as one text frame if it serialises; otherwise the session stops and writes nothing; the hub is never told |
| Session.OnClientEvent | src/session.rs:116-126 | Play, Skip and Ready2 each post exactly the matching hub command (Ready2 with the session's id) and leave local state alone; Ready1 clears and Playing sets the playing flag and posts nothing; no event stops the session |
| Session.OnFrame | src/session.rs:102-147 | an undecodable text frame stops the session; a decoded one is a client event; Ping and Pong set `hb := now` and Ping is answered with a Pong with the same payload; Close writes a close frame and stops; other frames do nothing; only Ping and Pong move `hb` |
| Session.SessionStep | src/session.rs:51-147 | no input changes the session id; a failed read stops the session silently; a stopping step posts nothing or just the session's own Disconnect |
| Session.Stopping | src/session.rs:75-83 | the stopping hook posts exactly one Disconnect, naming the session's id in both fields |
| Session.Handle | src/session.rs:75-83 | a step that stops is followed by the hook's Disconnect; a step that does not stop is left as it was |
| Session.StopsExactlyOn | src/session.rs:28-147 | a session stops exactly on a failed start, a timed-out tick, a serialise failure, a decode failure, a Close frame, or a read error |
| Session.FaultPostsOnlyDisconnect | src/session.rs:101-147 | read errors, Close frames, decode failures and serialise failures post nothing to the hub except the hook's Disconnect, and leave local state unchanged |
| Session.TimeoutDisconnectsTwice | src/session.rs:32-82 | a heartbeat timeout posts Disconnect twice: once from the tick and once from the hook |
| Session.PostsOnlyOwnId | src/session.rs:56-124 | every Connect, Disconnect and Ready2 a session posts names its own id, and so do the notifications inside them |
| Session.HeartbeatFrameKeepsAlive | src/session.rs:134-140 | after a Ping or Pong at time t, any tick no later than t + 10 s pings and does not stop |
| Session.TimeoutPersists | src/session.rs:32 | once timed out, a session stays timed out as the clock advances |
| Session.RunSessionKeepsId | src/session.rs:101-147 | over any input sequence, the id never changes and `hb` is either its starting value or the clock reading of some input |
| System.StartedSessionJoins | src/session.rs:56-63 | a session whose start reaches the hub becomes a member at its own address and is told that it connected |
| System.TimeoutLeavesHubAsOneDisconnect | src/server.rs:53-57 | the two Disconnects of a heartbeat timeout leave the hub where a single one would |
| System.ClientReadyMarksOwnId | src/session.rs:122-124 | a client's Ready2 adds exactly that session's id to the hub's ready set and changes nothing else |
| System.ClientPlayEnqueues | src/session.rs:117 | a client's Play link reaches every member once and lands at the queue tail |
| System.TwoJoinAndPlay | src/server.rs:63-71 | after a and b join and a link is played, each of them gets `Play{link}` exactly once and the queue is `[link]` |
| System.BarrierWaitsForBoth | src/server.rs:94-104 | with one of two members ready, Poll does nothing; with both ready, Poll sends Start to both, empties the queue and the ready set |
| System.LastSessionTimeoutDropsLink | src/server.rs:95-101 | when the only member times out and nobody was ready, the barrier is open on an empty room and the next Poll drops the queued link with no one told |

## Left out

- The actix actor runtime is not modelled: mailboxes, `do_send`/`send`
  asynchrony, `run_interval` scheduling, `wait` and the future combinators.
  The hub is a sequential function applied to commands in arrival order.
  A session's posted commands are a sequence in posting order.
- `HEARTBEAT_INTERVAL` (5 s) is not modelled. Ticks are
  inputs that the caller supplies at whatever times it chooses.
- serde_json encoding and decoding, and the `trim` before decoding, are
  opaque functions of the `Codec`. Round-trip properties of the wire format
  belong to a library that is not part of this model.
- `tracing` logging has no observable effect and is dropped.
- HTTP routing, the websocket upgrade, the shuttle runtime and worker setup
  in src/main.rs are not modelled. Only the initial session state is kept,
  as `NewSession`.
- The `Ready1` hub message struct (src/packets.rs:61-63) is not modelled.
  The hub has no handler for it and no session sends it.
- The failed `send` of Connect at start is an input flag
  (`connectDelivered`). The model does not say why a mailbox send fails.
- What actix does with events that arrive after a session has asked to
  stop is not modelled. `RunSession` ends at the first stopping input.
- `Running::Stop` from the stopping hook is implicit: the hook always lets
  the session stop.
- A socket stream that ends without a Close frame also stops the session
  (through actix's default `StreamHandler::finished`), and the stopping
  hook then posts Disconnect. The model has no input for this, so
  `StopsExactlyOn` lists the stopping inputs among the modelled inputs only.
- `Handle` lists the stopping hook's Disconnect after a failed start too.
  The send only fails when the hub's mailbox is gone, so that Disconnect
  reaches no hub either; feeding it to a live hub has no counterpart in
  the source.
