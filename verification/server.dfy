/** The coordination hub: the single owner of the membership map, the ready
    set and the link queue. Each message handler is a total, synchronous
    transition that returns the new hub together with the unordered set of
    sends it performed. */
module Server {
  import opened Packets

  /** One `do_send` performed while iterating the membership map: the map
      entry it went through (`member`), the recipient stored there, and the
      event. Tagging a send with its entry keeps two ids that share a
      recipient apart, so the set of deliveries is the multiset of sends. */
  datatype Delivery = Delivery(member: string, to: Recipient, msg: S2C)

  datatype Hub = Hub(members: map<string, Recipient>, ready: set<string>, queue: seq<string>)

  /** What a handler leaves behind: the new hub and what it sent. */
  datatype Outcome = Outcome(hub: Hub, outbox: set<Delivery>)

  /** The hub as it is created, with every collection empty. */
  const Initial: Hub := Hub(map[], {}, [])

  /** The sends in `out` that went through the entry of `id`. */
  function DeliveriesTo(out: set<Delivery>, id: string): set<Delivery>
  {
    set d | d in out && d.member == id
  }

  /** `out` is one broadcast of `msg` over `members`: every member receives
      exactly one copy at its own recipient, and nothing else is sent. */
  ghost predicate IsBroadcast(out: set<Delivery>, members: map<string, Recipient>, msg: S2C)
  {
    && (forall id :: id in members ==> DeliveriesTo(out, id) == {Delivery(id, members[id], msg)})
    && (forall d :: d in out ==> d.member in members)
  }

  /** Sending `msg` to every entry of the membership map. */
  function Broadcast(members: map<string, Recipient>, msg: S2C): (out: set<Delivery>)
    ensures IsBroadcast(out, members, msg)
  {
    set id | id in members :: Delivery(id, members[id], msg)
  }

  /** Broadcasting over a map is broadcasting over the map without `k`
      plus the one send through `k`, which the rest does not contain. */
  lemma BroadcastSplit(members: map<string, Recipient>, msg: S2C, k: string)
    requires k in members
    ensures Broadcast(members, msg) == Broadcast(members - {k}, msg) + {Delivery(k, members[k], msg)}
    ensures Delivery(k, members[k], msg) !in Broadcast(members - {k}, msg)
  {
    var rest := members - {k};
    assert members.Keys == rest.Keys + {k};
    var d := Delivery(k, members[k], msg);
    assert d in Broadcast(members, msg);
    forall e | e in Broadcast(members, msg)
      ensures e in Broadcast(rest, msg) + {d}
    {
      if e.member != k {
        assert e.member in rest;
      }
    }
  }

  /** A broadcast performs exactly one send per member. */
  lemma {:induction false} BroadcastSize(members: map<string, Recipient>, msg: S2C)
    ensures |Broadcast(members, msg)| == |members|
    decreases |members|
  {
    if members != map[] {
      var k :| k in members;
      var rest := members - {k};
      assert |members| == |rest| + 1 by {
        assert members.Keys == rest.Keys + {k};
      }
      BroadcastSplit(members, msg, k);
      BroadcastSize(rest, msg);
    } else {
      assert Broadcast(members, msg) == {};
    }
  }

  function NotifyConnect(h: Hub, notif: ConnectNotification): (out: set<Delivery>)
    ensures IsBroadcast(out, h.members, S2C.ConnectNotification(notif))
  {
    Broadcast(h.members, S2C.ConnectNotification(notif))
  }

  function NotifyDisconnect(h: Hub, notif: DisconnectNotification): (out: set<Delivery>)
    ensures IsBroadcast(out, h.members, S2C.DisconnectNotification(notif))
  {
    Broadcast(h.members, S2C.DisconnectNotification(notif))
  }

  function NotifySkip(h: Hub): (out: set<Delivery>)
    ensures IsBroadcast(out, h.members, S2C.Skip)
  {
    Broadcast(h.members, S2C.Skip)
  }

  /** Registers `addr` under `id`, replacing any earlier entry for `id`
      without complaint, then announces `notif` to the enlarged map. */
  function HandleConnect(h: Hub, id: string, addr: Recipient, notif: ConnectNotification): (o: Outcome)
    ensures id in o.hub.members && o.hub.members[id] == addr
    ensures o.hub.members.Keys == h.members.Keys + {id}
    ensures forall other :: other in h.members && other != id ==> o.hub.members[other] == h.members[other]
    ensures o.hub.ready == h.ready && o.hub.queue == h.queue
    ensures IsBroadcast(o.outbox, o.hub.members, S2C.ConnectNotification(notif))
    ensures DeliveriesTo(o.outbox, id) == {Delivery(id, addr, S2C.ConnectNotification(notif))}
  {
    var h' := h.(members := h.members[id := addr]);
    Outcome(h', NotifyConnect(h', notif))
  }

  /** Removes `id` if present, then announces `notif` to those who remain.
      The ready set is left as it was. */
  function HandleDisconnect(h: Hub, id: string, notif: DisconnectNotification): (o: Outcome)
    ensures id !in o.hub.members
    ensures o.hub.members.Keys == h.members.Keys - {id}
    ensures forall other :: other in o.hub.members ==> o.hub.members[other] == h.members[other]
    ensures id !in h.members ==> o.hub.members == h.members
    ensures o.hub.ready == h.ready && o.hub.queue == h.queue
    ensures IsBroadcast(o.outbox, o.hub.members, S2C.DisconnectNotification(notif))
    ensures DeliveriesTo(o.outbox, id) == {}
  {
    var h' := h.(members := h.members - {id});
    Outcome(h', NotifyDisconnect(h', notif))
  }

  /** Announces `link` to the current members and appends it to the queue. */
  function HandlePlay(h: Hub, link: string): (o: Outcome)
    ensures o.hub.queue == h.queue + [link]
    ensures o.hub.queue[|h.queue|] == link
    ensures o.hub.members == h.members && o.hub.ready == h.ready
    ensures IsBroadcast(o.outbox, h.members, S2C.Play(link))
  {
    var out := Broadcast(h.members, S2C.Play(link));
    Outcome(h.(queue := h.queue + [link]), out)
  }

  /** Tells every member to skip; the hub itself is untouched. */
  function HandleSkip(h: Hub): (o: Outcome)
    ensures o.hub == h
    ensures IsBroadcast(o.outbox, h.members, S2C.Skip)
  {
    Outcome(h, NotifySkip(h))
  }

  /** Marks `id` ready, whether or not it is a member, and sends nothing. */
  function HandleReady2(h: Hub, id: string): (o: Outcome)
    ensures o.hub.ready == h.ready + {id}
    ensures id in o.hub.ready
    ensures o.hub.members == h.members && o.hub.queue == h.queue
    ensures o.outbox == {}
  {
    Outcome(h.(ready := h.ready + {id}), {})
  }

  /** The barrier condition: a link is waiting and as many ids are ready as
      there are members. Only the two counts are compared. */
  predicate BarrierOpen(h: Hub)
  {
    |h.queue| > 0 && |h.members| == |h.ready|
  }

  /** When the barrier is open: drops the queue head, tells every member to
      start and begins a new ready round. Otherwise nothing happens. */
  function HandlePoll(h: Hub): (o: Outcome)
    ensures BarrierOpen(h) ==> o.hub == Hub(h.members, {}, h.queue[1..])
    ensures BarrierOpen(h) ==> IsBroadcast(o.outbox, h.members, S2C.Start)
    ensures !BarrierOpen(h) ==> o.hub == h && o.outbox == {}
  {
    if |h.queue| > 0 then
      if |h.members| == |h.ready| then
        var h' := Hub(h.members, {}, h.queue[1..]);
        Outcome(h', Broadcast(h.members, S2C.Start))
      else
        Outcome(h, {})
    else
      Outcome(h, {})
  }

  /** One command taken from the hub's mailbox. Membership changes only on
      Connect and Disconnect, the ready set only on Ready2 and Poll, and the
      queue only on Play and Poll. */
  function Step(h: Hub, cmd: Command): (o: Outcome)
    ensures !(cmd.Connect? || cmd.Disconnect?) ==> o.hub.members == h.members
    ensures !(cmd.Ready2? || cmd.Poll?) ==> o.hub.ready == h.ready
    ensures !(cmd.Play? || cmd.Poll?) ==> o.hub.queue == h.queue
    ensures cmd.Ready2? ==> o.outbox == {}
    ensures forall d :: d in o.outbox ==> d.member in o.hub.members && d.to == o.hub.members[d.member]
  {
    match cmd
    case Connect(id, addr, notif) => HandleConnect(h, id, addr, notif)
    case Disconnect(id, notif) => HandleDisconnect(h, id, notif)
    case Play(link) => HandlePlay(h, link)
    case Skip => HandleSkip(h)
    case Ready2(id) => HandleReady2(h, id)
    case Poll => HandlePoll(h)
  }

  /** The hub after processing `cmds` in arrival order. */
  function Run(h: Hub, cmds: seq<Command>): Hub
    decreases |cmds|
  {
    if cmds == [] then h else Run(Step(h, cmds[0]).hub, cmds[1..])
  }

  /** The link a command submits: one for Play, none otherwise. */
  function PlayLink(cmd: Command): seq<string>
  {
    if cmd.Play? then [cmd.link] else []
  }

  /** The links submitted by the Play commands of `cmds`, in order. */
  function PlayedLinks(cmds: seq<Command>): seq<string>
    decreases |cmds|
  {
    if cmds == [] then [] else PlayLink(cmds[0]) + PlayedLinks(cmds[1..])
  }

  predicate IsSuffix(q: seq<string>, all: seq<string>)
  {
    |q| <= |all| && q == all[|all| - |q|..]
  }

  lemma SuffixExtend(q: seq<string>, all: seq<string>, tail: seq<string>)
    requires IsSuffix(q, all)
    ensures IsSuffix(q + tail, all + tail)
  {
  }

  lemma SuffixTrans(a: seq<string>, b: seq<string>, c: seq<string>)
    requires IsSuffix(a, b) && IsSuffix(b, c)
    ensures IsSuffix(a, c)
  {
  }

  /** One command either appends its own link to the queue or drops the
      head of the queue (or both leave it alone). */
  lemma StepQueueIsSuffix(h: Hub, cmd: Command)
    ensures IsSuffix(Step(h, cmd).hub.queue, h.queue + PlayLink(cmd))
  {
  }

  lemma SuffixThroughPlays(q1: seq<string>, q: seq<string>, cmds: seq<Command>)
    requires cmds != []
    requires IsSuffix(q1, q + PlayLink(cmds[0]))
    ensures IsSuffix(q1 + PlayedLinks(cmds[1..]), q + PlayedLinks(cmds))
  {
    var tail := PlayedLinks(cmds[1..]);
    SuffixExtend(q1, q + PlayLink(cmds[0]), tail);
    assert PlayedLinks(cmds) == PlayLink(cmds[0]) + tail;
    assert q + PlayLink(cmds[0]) + tail == q + (PlayLink(cmds[0]) + tail);
  }

  /** The queue is first-in first-out: after any run it is what remains of
      the starting queue followed by every submitted link once some prefix
      has been consumed by the barrier. */
  lemma {:induction false} RunQueueIsSuffix(h: Hub, cmds: seq<Command>)
    ensures IsSuffix(Run(h, cmds).queue, h.queue + PlayedLinks(cmds))
    decreases |cmds|
  {
    if cmds == [] {
      assert h.queue + PlayedLinks(cmds) == h.queue;
    } else {
      var h1 := Step(h, cmds[0]).hub;
      StepQueueIsSuffix(h, cmds[0]);
      SuffixThroughPlays(h1.queue, h.queue, cmds);
      RunQueueIsSuffix(h1, cmds[1..]);
      SuffixTrans(Run(h1, cmds[1..]).queue, h1.queue + PlayedLinks(cmds[1..]), h.queue + PlayedLinks(cmds));
    }
  }

  /** The barrier pops the queue exactly when it is open; it sends Start
      exactly when it is open and someone is connected; and a pop always
      empties the ready set and sends one Start per member. */
  lemma PollFiresIff(h: Hub)
    ensures |HandlePoll(h).hub.queue| < |h.queue| <==> BarrierOpen(h)
    ensures (exists d :: d in HandlePoll(h).outbox && d.msg == S2C.Start) <==> BarrierOpen(h) && |h.members| > 0
    ensures BarrierOpen(h) ==> HandlePoll(h).hub.ready == {} && |HandlePoll(h).hub.queue| == |h.queue| - 1
    ensures BarrierOpen(h) ==> |HandlePoll(h).outbox| == |h.members|
  {
    var o := HandlePoll(h);
    if BarrierOpen(h) {
      BroadcastSize(h.members, S2C.Start);
      if |h.members| > 0 {
        var k :| k in h.members;
        assert Delivery(k, h.members[k], S2C.Start) in DeliveriesTo(o.outbox, k);
      }
    }
  }

  /** Marking the same id ready twice is the same as marking it once. */
  lemma Ready2Idempotent(h: Hub, id: string)
    ensures HandleReady2(HandleReady2(h, id).hub, id) == HandleReady2(h, id)
  {
  }

  /** Disconnecting an id twice leaves the hub as one disconnect does, and
      the second announcement reaches the same members as the first. */
  lemma DisconnectTwiceIsOnce(h: Hub, id: string, notif: DisconnectNotification)
    ensures HandleDisconnect(HandleDisconnect(h, id, notif).hub, id, notif) == HandleDisconnect(h, id, notif)
  {
  }

  /** Disconnect does not preserve `ready ⊆ members`: a member that leaves
      while ready stays in the ready set. */
  lemma DisconnectKeepsStaleReady(h: Hub, id: string, notif: DisconnectNotification)
    requires id in h.ready
    ensures var h' := HandleDisconnect(h, id, notif).hub;
            id in h'.ready && id !in h'.members && !(h'.ready <= h'.members.Keys)
  {
  }

  /** Running two batches of commands is running their concatenation. */
  lemma {:induction false} RunConcat(h: Hub, first: seq<Command>, second: seq<Command>)
    ensures Run(h, first + second) == Run(Run(h, first), second)
    decreases |first|
  {
    if first == [] {
      assert first + second == second;
    } else {
      assert (first + second)[1..] == first[1..] + second;
      RunConcat(Step(h, first[0]).hub, first[1..], second);
    }
  }

  /** Connecting an id and then disconnecting it leaves every other entry
      as it was and no entry for that id. */
  lemma ConnectThenDisconnect(h: Hub, id: string, addr: Recipient,
                              cn: ConnectNotification, dn: DisconnectNotification)
    ensures HandleDisconnect(HandleConnect(h, id, addr, cn).hub, id, dn).hub.members == h.members - {id}
  {
  }

  /** The membership map after a Connect or Disconnect, stated on the map
      alone. */
  function MembersAfter(m: map<string, Recipient>, cmd: Command): map<string, Recipient>
    requires cmd.Connect? || cmd.Disconnect?
  {
    if cmd.Connect? then m[cmd.id := cmd.addr] else m - {cmd.id}
  }

  lemma StepMembers(h: Hub, cmd: Command)
    requires cmd.Connect? || cmd.Disconnect?
    ensures Step(h, cmd).hub.members == MembersAfter(h.members, cmd)
  {
  }

  lemma MembersAfterCommute(m: map<string, Recipient>, c1: Command, c2: Command)
    requires (c1.Connect? || c1.Disconnect?) && (c2.Connect? || c2.Disconnect?)
    requires c1.id != c2.id
    ensures MembersAfter(MembersAfter(m, c1), c2) == MembersAfter(MembersAfter(m, c2), c1)
  {
    var l := MembersAfter(MembersAfter(m, c1), c2);
    var r := MembersAfter(MembersAfter(m, c2), c1);
    assert l.Keys == r.Keys;
    forall k | k in l
      ensures l[k] == r[k]
    {
    }
  }

  /** Membership does not depend on the order of Connect and Disconnect
      commands for different ids. */
  lemma MembershipCommutes(h: Hub, c1: Command, c2: Command)
    requires (c1.Connect? || c1.Disconnect?) && (c2.Connect? || c2.Disconnect?)
    requires c1.id != c2.id
    ensures Run(h, [c1, c2]).members == Run(h, [c2, c1]).members
  {
    RunPair(h, c1, c2);
    RunPair(h, c2, c1);
    StepMembers(h, c1);
    StepMembers(h, c2);
    StepMembers(Step(h, c1).hub, c2);
    StepMembers(Step(h, c2).hub, c1);
    MembersAfterCommute(h.members, c1, c2);
  }

  lemma RunSingle(h: Hub, cmd: Command)
    ensures Run(h, [cmd]) == Step(h, cmd).hub
  {
  }

  lemma RunPair(h: Hub, first: Command, second: Command)
    ensures Run(h, [first, second]) == Step(Step(h, first).hub, second).hub
  {
    RunConcat(h, [first], [second]);
    assert [first] + [second] == [first, second];
    RunSingle(h, first);
    RunSingle(Step(h, first).hub, second);
  }

  lemma JoinThree(a: string, b: string, c: string, ra: Recipient, rb: Recipient, rc: Recipient)
    ensures var h := Run(Initial, [ConnectAs(a, ra), ConnectAs(b, rb), ConnectAs(c, rc)]);
            h.members.Keys == {a, b, c} && h.ready == {} && h.queue == []
  {
    var joins := [ConnectAs(a, ra), ConnectAs(b, rb), ConnectAs(c, rc)];
    assert [joins[0], joins[1]] + [joins[2]] == joins;
    RunConcat(Initial, [joins[0], joins[1]], [joins[2]]);
    RunPair(Initial, joins[0], joins[1]);
    RunSingle(Run(Initial, [joins[0], joins[1]]), joins[2]);
  }

  lemma StaleReadyPhases(a: string, b: string, c: string, ra: Recipient, rb: Recipient, rc: Recipient, link: string)
    requires a != b && b != c && a != c
    ensures var h := Run(Run(Run(Initial, [ConnectAs(a, ra), ConnectAs(b, rb), ConnectAs(c, rc)]),
                                 [Command.Ready2(a), Command.Ready2(c)]),
                             [DisconnectAs(c), Command.Play(link)]);
            b in h.members && b !in h.ready && BarrierOpen(h)
  {
    var h3 := Run(Initial, [ConnectAs(a, ra), ConnectAs(b, rb), ConnectAs(c, rc)]);
    JoinThree(a, b, c, ra, rb, rc);
    var h5 := Run(h3, [Command.Ready2(a), Command.Ready2(c)]);
    RunPair(h3, Command.Ready2(a), Command.Ready2(c));
    var h7 := Run(h5, [DisconnectAs(c), Command.Play(link)]);
    RunPair(h5, DisconnectAs(c), Command.Play(link));
    assert h7.members.Keys == {a, b} && h7.ready == {a, c} && h7.queue == [link];
    assert |h7.members| == |h7.members.Keys| == 2;
  }

  /** Because only the counts are compared, a stale ready id can stand in
      for a member that never said it was ready: after `a`, `b` and `c`
      join, `a` and `c` get ready and `c` leaves, a submitted link opens the
      barrier although `b` is not ready. */
  lemma StaleReadyOpensBarrier(a: string, b: string, c: string, ra: Recipient, rb: Recipient, rc: Recipient, link: string)
    requires a != b && b != c && a != c
    ensures var h := Run(Initial, [ConnectAs(a, ra), ConnectAs(b, rb), ConnectAs(c, rc)]
                                  + [Command.Ready2(a), Command.Ready2(c)]
                                  + [DisconnectAs(c), Command.Play(link)]);
            b in h.members && b !in h.ready && BarrierOpen(h)
  {
    var joins := [ConnectAs(a, ra), ConnectAs(b, rb), ConnectAs(c, rc)];
    var readies := [Command.Ready2(a), Command.Ready2(c)];
    var leave := [DisconnectAs(c), Command.Play(link)];
    StaleReadyPhases(a, b, c, ra, rb, rc, link);
    RunConcat(Initial, joins + readies, leave);
    RunConcat(Initial, joins, readies);
  }

  /** With nobody connected and nobody ready, the barrier still opens
      (0 == 0): the queue head is dropped and no Start is sent. */
  lemma PollWithNoMembersStillPops(q: seq<string>)
    requires |q| > 0
    ensures HandlePoll(Hub(map[], {}, q)) == Outcome(Hub(map[], {}, q[1..]), {})
  {
  }
}
