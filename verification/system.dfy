/** Properties of sessions and the hub together: the commands a session
    posts are fed to the hub in the order they were posted. */
module System {
  import opened Wrappers
  import opened Packets
  import opened Server
  import opened Session

  /** A session that starts and reaches the hub becomes a member under its
      own id, at its own address, and is itself told that it connected. */
  lemma StartedSessionJoins(h: Hub, s: Session, me: Recipient, now: nat, codec: Codec)
    ensures var cmds := Handle(s, Started(me, true), now, codec).hub;
            && cmds == [ConnectAs(s.id, me)]
            && Run(h, cmds).members == h.members[s.id := me]
            && DeliveriesTo(Step(h, cmds[0]).outbox, s.id)
               == {Delivery(s.id, me, S2C.ConnectNotification(ConnectNotification.ConnectNotification(s.id)))}
  {
  }

  /** The duplicate Disconnect of a heartbeat timeout is harmless: the hub
      ends where a single Disconnect leaves it. */
  lemma TimeoutLeavesHubAsOneDisconnect(h: Hub, s: Session, now: nat, codec: Codec)
    requires TimedOut(s, now)
    ensures Run(h, Handle(s, Tick, now, codec).hub) == Run(h, [DisconnectAs(s.id)])
    ensures s.id !in Run(h, Handle(s, Tick, now, codec).hub).members
  {
  }

  /** A client's Ready2 marks its own session's id ready at the hub, and
      nothing else about the hub changes. */
  lemma ClientReadyMarksOwnId(h: Hub, s: Session, text: string, now: nat, codec: Codec)
    requires codec.decode(text) == Some(C2S.Ready2)
    ensures var h' := Run(h, Handle(s, Inbound(Text(text)), now, codec).hub);
            h'.ready == h.ready + {s.id} && h'.members == h.members && h'.queue == h.queue
  {
  }

  /** A client's Play link is announced to every member and lands at the
      tail of the queue. */
  lemma ClientPlayEnqueues(h: Hub, s: Session, text: string, link: string, now: nat, codec: Codec)
    requires codec.decode(text) == Some(C2S.Play(link))
    ensures var cmds := Handle(s, Inbound(Text(text)), now, codec).hub;
            && cmds == [Command.Play(link)]
            && Run(h, cmds).queue == h.queue + [link]
            && IsBroadcast(Step(h, cmds[0]).outbox, h.members, S2C.Play(link))
  {
  }

  /** Two members join and one submits a link: both are told to play it,
      the queue holds just that link and nobody is ready yet. */
  lemma TwoJoinAndPlay(a: string, b: string, ra: Recipient, rb: Recipient, link: string)
    requires a != b
    ensures var h := Run(Initial, [ConnectAs(a, ra), ConnectAs(b, rb)]);
            var o := Step(h, Command.Play(link));
            && h.members == map[a := ra, b := rb]
            && DeliveriesTo(o.outbox, a) == {Delivery(a, ra, S2C.Play(link))}
            && DeliveriesTo(o.outbox, b) == {Delivery(b, rb, S2C.Play(link))}
            && |o.outbox| == 2
            && o.hub == Hub(map[a := ra, b := rb], {}, [link])
  {
    RunPair(Initial, ConnectAs(a, ra), ConnectAs(b, rb));
    var h := Run(Initial, [ConnectAs(a, ra), ConnectAs(b, rb)]);
    assert h.members == map[a := ra, b := rb];
    BroadcastSize(h.members, S2C.Play(link));
    assert |h.members| == 2 by { assert h.members.Keys == {a, b}; }
  }

  /** From the hub TwoJoinAndPlay ends in: with one of the two ready the
      barrier stays shut; once
      both are ready it sends Start to both, consumes the link and starts
      a new ready round. */
  lemma BarrierWaitsForBoth(a: string, b: string, ra: Recipient, rb: Recipient, link: string)
    requires a != b
    ensures var h := Hub(map[a := ra, b := rb], {}, [link]);
            var p1 := Step(HandleReady2(h, a).hub, Command.Poll);
            var p2 := Step(HandleReady2(p1.hub, b).hub, Command.Poll);
            && p1.outbox == {} && p1.hub.ready == {a} && p1.hub.queue == [link]
            && IsBroadcast(p2.outbox, h.members, S2C.Start)
            && |p2.outbox| == 2
            && p2.hub == Hub(h.members, {}, [])
  {
    var h := Hub(map[a := ra, b := rb], {}, [link]);
    assert |h.members| == 2 by { assert h.members.Keys == {a, b}; }
    var h1 := HandleReady2(h, a).hub;
    assert !BarrierOpen(h1);
    var h2 := HandleReady2(h1, b).hub;
    assert h2.ready == {a, b};
    assert BarrierOpen(h2);
    BroadcastSize(h.members, S2C.Start);
  }

  /** A session that times out while its hub round is otherwise empty
      leaves the barrier open with nobody to tell: the next Poll from any
      session drops the queued link unseen. */
  lemma LastSessionTimeoutDropsLink(s: Session, me: Recipient, link: string, now: nat, codec: Codec)
    requires TimedOut(s, now)
    ensures var h := Hub(map[s.id := me], {}, [link]);
            var h' := Run(h, Handle(s, Tick, now, codec).hub);
            && h'.members == map[] && h'.ready == {} && BarrierOpen(h')
            && HandlePoll(h') == Outcome(Hub(map[], {}, []), {})
  {
    var h := Hub(map[s.id := me], {}, [link]);
    TimeoutLeavesHubAsOneDisconnect(h, s, now, codec);
    RunSingle(h, DisconnectAs(s.id));
    var h' := Run(h, Handle(s, Tick, now, codec).hub);
    assert h'.members == map[];
    PollWithNoMembersStillPops([link]);
  }
}
