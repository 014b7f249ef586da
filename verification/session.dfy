/** The per-connection supervisor: a session keeps its id, the time it last
    heard from its peer and whether its client reported playback. Every
    event it handles is a pure step from the old local state and the current
    time to the new local state, the commands it posts to the hub, the
    frames it writes to its websocket, and whether it asked to stop. */
module Session {
  import opened Wrappers
  import opened Packets

  /** Time is a natural-number clock counting nanoseconds. */
  const NanosPerSecond: nat := 1_000_000_000

  /** How long a peer may stay silent before the session gives up on it. */
  const SessionTimeout: nat := 10 * NanosPerSecond

  datatype Session = Session(id: string, hb: nat, playing: bool)

  /** A freshly accepted connection: heard from now, not playing. */
  function NewSession(id: string, now: nat): (s: Session)
    ensures s.id == id && s.hb == now && !s.playing
  {
    Session(id, now, false)
  }

  /** The code and text a close frame may carry; passed through unread. */
  datatype CloseReason = CloseReason(code: nat, description: Option<string>)

  /** A websocket frame as delivered by the transport. */
  datatype Frame =
    | Text(text: string)
    | Binary(data: seq<bv8>)
    | Continuation
    | Ping(data: seq<bv8>)
    | Pong(data: seq<bv8>)
    | Close(reason: Option<CloseReason>)
    | Nop

  /** Everything a session reacts to. `Started` is the actor starting, with
      its own address and whether posting Connect reached the hub; `Tick` is
      the heartbeat timer; `Outbound` is a hub broadcast addressed to this
      session; `Inbound` is a frame read from the socket and `ProtocolError`
      a failed read. */
  datatype Input =
    | Started(me: Recipient, connectDelivered: bool)
    | Tick
    | Outbound(msg: S2C)
    | Inbound(frame: Frame)
    | ProtocolError

  /** What a session writes to its websocket. */
  datatype Action =
    | SendText(text: string)
    | SendPing(data: seq<bv8>)
    | SendPong(data: seq<bv8>)
    | SendClose(reason: Option<CloseReason>)

  /** The JSON codec, opaque to the model: `decode` stands for trimming a
      text frame and parsing it as a C2S, `encode` for serialising an S2C.
      Either may fail. */
  datatype Codec = Codec(decode: string -> Option<C2S>, encode: S2C -> Option<string>)

  datatype Reaction = Reaction(session: Session, hub: seq<Command>, transport: seq<Action>, stopped: bool)

  /** Nothing happens. */
  function Ignore(s: Session): Reaction
  {
    Reaction(s, [], [], false)
  }

  /** The session asks to stop, having written `transport` first. */
  function Stop(s: Session, transport: seq<Action>): Reaction
  {
    Reaction(s, [], transport, true)
  }

  /** Time since the last sign of life; an earlier clock reading than `hb`
      counts as no time at all. */
  function Elapsed(hb: nat, now: nat): (d: nat)
    ensures now >= hb ==> hb + d == now
    ensures now < hb ==> d == 0
  {
    if now >= hb then now - hb else 0
  }

  /** The peer has been silent for strictly longer than the timeout. */
  predicate TimedOut(s: Session, now: nat)
  {
    Elapsed(s.hb, now) > SessionTimeout
  }

  /** The heartbeat timer: a silent peer is unregistered and the session
      stops; otherwise the peer is pinged and, unless the client reported
      playback, the hub is asked to check the barrier. */
  function OnTick(s: Session, now: nat): (r: Reaction)
    ensures r.session == s
    ensures TimedOut(s, now) ==> r.stopped && r.hub == [DisconnectAs(s.id)] && r.transport == []
    ensures !TimedOut(s, now) ==> !r.stopped && r.transport == [SendPing([])]
    ensures !TimedOut(s, now) ==> (r.hub == [Command.Poll] <==> !s.playing) && (r.hub == [] <==> s.playing)
    ensures Command.Poll in r.hub <==> !TimedOut(s, now) && !s.playing
  {
    if TimedOut(s, now) then
      Reaction(s, [DisconnectAs(s.id)], [], true)
    else
      Reaction(s, if s.playing then [] else [Command.Poll], [SendPing([])], false)
  }

  /** The actor starts: the heartbeat timer is armed (nothing visible) and
      the session registers itself with the hub. `hub` lists what reached
      the hub: Connect when the send succeeded, nothing when it failed, in
      which case the session stops. */
  function OnStarted(s: Session, me: Recipient, connectDelivered: bool): (r: Reaction)
    ensures r.session == s && r.transport == []
    ensures connectDelivered ==> r.hub == [ConnectAs(s.id, me)] && r.hub[0].connectNotif.id == s.id
    ensures !connectDelivered ==> r.hub == []
    ensures r.stopped <==> !connectDelivered
  {
    if connectDelivered then Reaction(s, [ConnectAs(s.id, me)], [], false) else Stop(s, [])
  }

  /** A hub broadcast for this session: written out as text, or, if it
      cannot be serialised, the session stops without writing anything. */
  function OnOutbound(s: Session, msg: S2C, codec: Codec): (r: Reaction)
    ensures r.session == s && r.hub == []
    ensures r.stopped <==> codec.encode(msg).None?
    ensures codec.encode(msg).Some? ==> r.transport == [SendText(codec.encode(msg).value)]
    ensures r.stopped ==> r.transport == []
  {
    match codec.encode(msg)
    case Some(text) => Reaction(s, [], [SendText(text)], false)
    case None => Stop(s, [])
  }

  /** A decoded client event: the three hub requests are forwarded, the two
      playback reports only flip the local flag. */
  function OnClientEvent(s: Session, ev: C2S): (r: Reaction)
    ensures !r.stopped && r.transport == []
    ensures r.session.id == s.id && r.session.hb == s.hb
    ensures ev.Play? ==> r.hub == [Command.Play(ev.ytLink)] && r.session == s
    ensures ev.Skip? ==> r.hub == [Command.Skip] && r.session == s
    ensures ev.Ready2? ==> r.hub == [Command.Ready2(s.id)] && r.session == s
    ensures ev.Ready1? ==> r.hub == [] && !r.session.playing
    ensures ev.Playing? ==> r.hub == [] && r.session.playing
    ensures r.session.playing != s.playing ==> ev.Ready1? || ev.Playing?
  {
    match ev
    case Play(link) => Reaction(s, [Command.Play(link)], [], false)
    case Skip => Reaction(s, [Command.Skip], [], false)
    case Ready1 => Reaction(s.(playing := false), [], [], false)
    case Ready2 => Reaction(s, [Command.Ready2(s.id)], [], false)
    case Playing => Reaction(s.(playing := true), [], [], false)
  }

  /** A frame read from the socket. */
  function OnFrame(s: Session, frame: Frame, now: nat, codec: Codec): (r: Reaction)
    ensures frame.Text? && codec.decode(frame.text).None? ==> r == Stop(s, [])
    ensures frame.Text? && codec.decode(frame.text).Some? ==> r == OnClientEvent(s, codec.decode(frame.text).value)
    ensures frame.Ping? ==> r == Reaction(s.(hb := now), [], [SendPong(frame.data)], false)
    ensures frame.Pong? ==> r == Reaction(s.(hb := now), [], [], false)
    ensures frame.Close? ==> r.stopped && r.hub == [] && r.transport == [SendClose(frame.reason)] && r.session == s
    ensures frame.Binary? || frame.Continuation? || frame.Nop? ==> r == Ignore(s)
    ensures r.session.hb != s.hb ==> r.session.hb == now && (frame.Ping? || frame.Pong?)
  {
    match frame
    case Text(text) =>
      (match codec.decode(text)
       case Some(ev) => OnClientEvent(s, ev)
       case None => Stop(s, []))
    case Ping(data) => Reaction(s.(hb := now), [], [SendPong(data)], false)
    case Pong(_) => Reaction(s.(hb := now), [], [], false)
    case Close(reason) => Stop(s, [SendClose(reason)])
    case _ => Ignore(s)
  }

  /** One event, before the stopping hook runs. */
  function SessionStep(s: Session, input: Input, now: nat, codec: Codec): (r: Reaction)
    ensures r.session.id == s.id
    ensures r.stopped ==> r.hub == [] || r.hub == [DisconnectAs(s.id)]
    ensures r.session.hb != s.hb ==> r.session.hb == now
    ensures input.ProtocolError? ==> r == Stop(s, [])
  {
    match input
    case Started(me, delivered) => OnStarted(s, me, delivered)
    case Tick => OnTick(s, now)
    case Outbound(msg) => OnOutbound(s, msg, codec)
    case Inbound(frame) => OnFrame(s, frame, now, codec)
    case ProtocolError => Stop(s, [])
  }

  /** The stopping hook: whatever made the session stop, it unregisters
      itself from the hub. */
  function Stopping(s: Session): (cmds: seq<Command>)
    ensures cmds == [DisconnectAs(s.id)]
    ensures cmds[0].id == s.id && cmds[0].disconnectNotif.id == s.id
  {
    [DisconnectAs(s.id)]
  }

  /** One event followed, if it stopped the session, by the stopping hook. */
  function Handle(s: Session, input: Input, now: nat, codec: Codec): (r: Reaction)
    ensures var step := SessionStep(s, input, now, codec);
            r.session == step.session && r.transport == step.transport && r.stopped == step.stopped
    ensures var step := SessionStep(s, input, now, codec);
            r.hub == step.hub + (if step.stopped then [DisconnectAs(s.id)] else [])
  {
    var step := SessionStep(s, input, now, codec);
    if step.stopped then step.(hub := step.hub + Stopping(step.session)) else step
  }

  /** The inputs that stop a session, stated independently of the handlers:
      a failed start, a silent peer at a tick, an unserialisable broadcast,
      an undecodable text frame, a close frame, or a failed read. */
  predicate StopsOn(s: Session, input: Input, now: nat, codec: Codec)
  {
    match input
    case Started(_, delivered) => !delivered
    case Tick => TimedOut(s, now)
    case Outbound(msg) => codec.encode(msg).None?
    case Inbound(frame) => (frame.Text? && codec.decode(frame.text).None?) || frame.Close?
    case ProtocolError => true
  }

  /** A session stops on exactly the inputs listed by StopsOn. */
  lemma StopsExactlyOn(s: Session, input: Input, now: nat, codec: Codec)
    ensures Handle(s, input, now, codec).stopped <==> StopsOn(s, input, now, codec)
  {
  }

  /** A fault (a failed read, a close frame, an undecodable text frame or an
      unserialisable broadcast) posts nothing to the hub but the stopping
      hook's Disconnect. */
  lemma FaultPostsOnlyDisconnect(s: Session, input: Input, now: nat, codec: Codec)
    requires StopsOn(s, input, now, codec) && (input.Outbound? || input.Inbound? || input.ProtocolError?)
    ensures Handle(s, input, now, codec).hub == [DisconnectAs(s.id)]
    ensures Handle(s, input, now, codec).session == s
  {
  }

  /** A heartbeat timeout posts Disconnect itself and the stopping hook posts
      it again: the hub is told twice. */
  lemma TimeoutDisconnectsTwice(s: Session, now: nat, codec: Codec)
    requires TimedOut(s, now)
    ensures Handle(s, Tick, now, codec).hub == [DisconnectAs(s.id), DisconnectAs(s.id)]
    ensures Handle(s, Tick, now, codec).transport == []
  {
  }

  /** A session only ever speaks for itself: every command it posts that
      names an id names its own. */
  lemma PostsOnlyOwnId(s: Session, input: Input, now: nat, codec: Codec)
    ensures forall c :: c in Handle(s, input, now, codec).hub && (c.Connect? || c.Disconnect? || c.Ready2?) ==> c.id == s.id
    ensures forall c :: c in Handle(s, input, now, codec).hub && c.Connect? ==> c.connectNotif.id == s.id
    ensures forall c :: c in Handle(s, input, now, codec).hub && c.Disconnect? ==> c.disconnectNotif.id == s.id
  {
  }

  /** Answering a ping or a pong keeps the peer alive: a heartbeat tick no
      later than the timeout afterwards pings instead of disconnecting. */
  lemma HeartbeatFrameKeepsAlive(s: Session, frame: Frame, t: nat, now: nat, codec: Codec)
    requires frame.Ping? || frame.Pong?
    requires now <= t + SessionTimeout
    ensures var s' := Handle(s, Inbound(frame), t, codec).session;
            !Handle(s', Tick, now, codec).stopped && Handle(s', Tick, now, codec).transport == [SendPing([])]
  {
  }

  /** Once a peer has timed out it stays timed out as the clock advances
      until something refreshes the heartbeat. */
  lemma TimeoutPersists(s: Session, now: nat, later: nat)
    requires TimedOut(s, now) && now <= later
    ensures TimedOut(s, later)
  {
  }

  /** A session's state after a sequence of inputs, stopping at the first
      input that stops it. */
  function RunSession(s: Session, inputs: seq<(Input, nat)>, codec: Codec): Session
    decreases |inputs|
  {
    if inputs == [] then s
    else
      var r := Handle(s, inputs[0].0, inputs[0].1, codec);
      if r.stopped then r.session else RunSession(r.session, inputs[1..], codec)
  }

  /** No input ever changes a session's id, and `hb` ends as its starting
      value or as the clock reading of some input. */
  lemma {:induction false} RunSessionKeepsId(s: Session, inputs: seq<(Input, nat)>, codec: Codec)
    ensures RunSession(s, inputs, codec).id == s.id
    ensures var hb := RunSession(s, inputs, codec).hb;
            hb == s.hb || exists i :: 0 <= i < |inputs| && hb == inputs[i].1
    decreases |inputs|
  {
    if inputs != [] {
      var r := Handle(s, inputs[0].0, inputs[0].1, codec);
      if !r.stopped {
        RunSessionKeepsId(r.session, inputs[1..], codec);
        var hb := RunSession(r.session, inputs[1..], codec).hb;
        if hb != r.session.hb {
          var i :| 0 <= i < |inputs[1..]| && hb == inputs[1..][i].1;
          assert hb == inputs[i + 1].1;
        }
      }
    }
  }
}
