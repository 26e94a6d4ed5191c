// Every step of the relay keeps its invariant. The steps that make something new (an id,
// a timer) rely on the direct channels: a call has at most one message in flight.
module RelayKeeps {
  import opened Ids
  import opened Procedures
  import opened IdMap
  import opened RicCore
  import opened Relay
  import opened RelayInv
  import opened RelayFlight
  import opened RelaySim
  import D = Direct

  // ------------------------------------------------------------ xApps

  lemma HistoryGrows(s: State, h: Handle, issue: Issue)
    requires h !in s.hist
    requires TableOk(s.table, s.hist, s.ric.drawn) && PcOk(s.hist, s.table, s.ric.drawn, s.pc)
    ensures TableOk(s.table, s.hist[h := issue], s.ric.drawn)
    ensures PcOk(s.hist[h := issue], s.table, s.ric.drawn, s.pc)
  {
  }

  lemma UnknownUnmapped(t: Table, hist: map<Handle, Issue>, drawn: nat, x: XappRicId)
    requires TableOk(t, hist, drawn) && HandleOf(x) !in hist
    ensures x !in t.right
  {
  }

  lemma StartEnds(s: State, x: nat, issue: Issue)
    requires CanStart(s, x, issue) && EndsOk(s) && TableOk(NextTable(s), s.hist, s.ric.drawn)
    ensures EndsOk(AfterStart(s, x, issue))
  {
    var h := Handle(x, s.nextKey[x]);
    var t := AfterStart(s, x, issue);
    assert NextTable(t) == NextTable(s);
    UnknownUnmapped(NextTable(s), s.hist, s.ric.drawn, IdFor(h, issue));
    assert UpOk(t.hist, NextTable(s).right, t.up);
  }

  lemma StartKeeps(s: State, x: nat, issue: Issue)
    requires Inv(s) && CanStart(s, x, issue)
    ensures Inv(AfterStart(s, x, issue))
  {
    HistoryGrows(s, Handle(x, s.nextKey[x]), issue);
    NextTableOk(s);
    StartEnds(s, x, issue);
    assert NextTable(AfterStart(s, x, issue)) == NextTable(s);
  }

  lemma DeleteEnds(s: State, d: D.State, h: Handle)
    requires EndsOk(s) && d.reg == s.reg && d.hist == s.hist && D.RegOk(d.reg, d.hist) && CanDelete(s, h)
    ensures EndsOk(AfterDelete(s, h))
  {
    assert NextTable(AfterDelete(s, h)) == NextTable(s);
    assert IdFor(h, s.hist[h]) in NextTable(s).right;
  }

  lemma DeleteKeeps(s: State, d: D.State, h: Handle)
    requires Inv(s) && d.reg == s.reg && d.hist == s.hist && D.RegOk(d.reg, d.hist) && CanDelete(s, h)
    ensures Inv(AfterDelete(s, h))
  {
    assert NextTable(AfterDelete(s, h)) == NextTable(s);
    DeleteEnds(s, d, h);
  }

  lemma ForgetKeeps(s: State, h: Handle)
    requires Inv(s) && CanForget(s, h)
    ensures Inv(AfterForget(s, h))
  {
    assert NextTable(AfterForget(s, h)) == NextTable(s);
  }

  lemma SettleKeeps(s: State, i: nat)
    requires Inv(s) && CanSettle(s, i)
    ensures Inv(AfterSettle(s, i))
  {
    assert NextTable(AfterSettle(s, i)) == NextTable(s);
    NextTableOk(s);
    SettleEnds(s, i);
  }

  lemma SettleEnds(s: State, i: nat)
    requires EndsOk(s) && TableOk(NextTable(s), s.hist, s.ric.drawn) && CanSettle(s, i)
    ensures EndsOk(AfterSettle(s, i))
  {
    assert NextTable(AfterSettle(s, i)) == NextTable(s);
    var x := XappRicId(s.toX[i].m.id, s.toX[i].xapp);
    assert x in NextTable(s).right;
    assert x == IdFor(HandleAtX(s.toX[i]), s.hist[HandleAtX(s.toX[i])]);
  }

  lemma HearEnds(s: State, d: D.State, i: nat)
    requires EndsOk(s) && d.reg == s.reg && d.hist == s.hist && D.RegOk(d.reg, d.hist) && CanHear(s, i)
    ensures EndsOk(AfterHear(s, i))
  {
    assert NextTable(AfterHear(s, i)) == NextTable(s);
  }

  lemma HearKeeps(s: State, d: D.State, i: nat)
    requires Inv(s) && d.reg == s.reg && d.hist == s.hist && D.RegOk(d.reg, d.hist) && CanHear(s, i)
    ensures Inv(AfterHear(s, i))
  {
    assert NextTable(AfterHear(s, i)) == NextTable(s);
    HearEnds(s, d, i);
  }

  // ------------------------------------------------------------ one message in flight per call

  /** While one copy of a request or answer is in flight, its channel holds nothing else. */
  lemma AloneInChannel(bag: multiset<Packet>, d: D.State, p: Packet, q: Packet)
    requires Carries(bag, d) && p in bag && q in bag && p.id == q.id && !p.Ind? && !q.Ind?
    ensures p == q && bag[p] == 1
  {
    CarriesOne(bag, d, p);
    CarriesOne(bag, d, q);
  }

  lemma NoTwin(s: State, d: D.State, i: nat)
    requires Carries(InFlight(s), d) && i < |s.up| && s.pc.Holding?
    requires E42Ok(s.hist, s.up[i]) && E42Ok(s.hist, s.pc.e) && s.up[i].E42Request? && s.pc.e.E42Request?
    ensures XOf(s.up[i]) != XOf(s.pc.e)
  {
    if XOf(s.up[i]) == XOf(s.pc.e) {
      var p := UpPacket(s.pc.e);
      assert UpPacket(s.up[i]) == p;
      UpRemove(s.up, i);
      AloneInChannel(InFlight(s), d, p, p);
    }
  }

  /** Nothing but the held request travels for its procedure, so no message on the
      RIC's side shares its pending event. */
  lemma NoSecondEvent(s: State, d: D.State, q: seq<Wire>, k: nat, h: Handle)
    requires Carries(InFlight(s), d) && k < |q| && !q[k].m.Ind?
    requires q == s.ric.down || q == s.back || q == s.arrived
    requires !s.pc.Idle? && !s.pc.Forwarded? && UpPacket(s.pc.e).id == h
    ensures WirePacket(NextTable(s).left, q[k]).id != h
  {
    if WirePacket(NextTable(s).left, q[k]).id == h {
      var left := NextTable(s).left;
      WireRemove(left, q, k);
      AloneInChannel(InFlight(s), d, UpPacket(s.pc.e), WirePacket(left, q[k]));
    }
  }

  // ------------------------------------------------------------ iApp thread

  lemma TakeEnds(s: State, i: nat)
    requires EndsOk(s) && CanTake(s, i)
    ensures EndsOk(AfterTake(s, i))
    ensures PcOk(s.hist, s.table, s.ric.drawn, AfterTake(s, i).pc)
  {
    assert NextTable(AfterTake(s, i)) == NextTable(s) == s.table;
  }

  lemma TakeKeeps(s: State, i: nat)
    requires Inv(s) && CanTake(s, i)
    ensures Inv(AfterTake(s, i))
  {
    assert NextTable(AfterTake(s, i)) == NextTable(s);
    TakeEnds(s, i);
  }

  lemma DrawLinks(s: State)
    requires LinksOk(s) && CanDraw(s) && ReqIdOf(s.ric.drawn) !in s.table.left
    ensures LinksOk(AfterDraw(s))
  {
    var r, o := ReqIdOf(s.ric.drawn), Origin(s.pc.e.node, XOf(s.pc.e));
    assert NextTable(AfterDraw(s)).left == s.table.left[r := o];
  }

  lemma DrawEnds(s: State, d: D.State)
    requires EndsOk(s) && CanDraw(s) && Carries(InFlight(s), d) && E42Ok(s.hist, s.pc.e)
    ensures EndsOk(AfterDraw(s))
  {
    var t := AfterDraw(s);
    var x := XOf(s.pc.e);
    assert NextTable(t).right.Keys == s.table.right.Keys + {x};
    forall i | 0 <= i < |s.up| ensures s.up[i].E42Delete? <==> XOf(s.up[i]) in NextTable(t).right {
      if s.up[i].E42Request? {
        NoTwin(s, d, i);
      }
    }
  }

  lemma DrawTable(s: State)
    requires CanDraw(s) && s.ric.drawn < MODULUS
    requires TableOk(s.table, s.hist, s.ric.drawn) && PcOk(s.hist, s.table, s.ric.drawn, s.pc)
    ensures ReqIdOf(s.ric.drawn) !in s.table.left && TableOk(s.table, s.hist, s.ric.drawn + 1)
    ensures PcOk(s.hist, s.table, s.ric.drawn + 1, AfterDraw(s).pc)
  {
    DrawOfReqId(s.ric.drawn);
  }

  lemma DrawKeeps(s: State, d: D.State)
    requires Inv(s) && CanDraw(s) && Carries(InFlight(s), d) && s.ric.drawn < MODULUS
    ensures Inv(AfterDraw(s))
  {
    DrawTable(s);
    DrawLinks(s);
    DrawEnds(s, d);
  }

  lemma EventsIn(q: seq<Wire>, ev: PendingRic)
    requires Some(ev) in multiset(EventKeys(q))
    ensures exists k :: 0 <= k < |q| && !q[k].m.Ind? && PendingRic(EventOf(q[k].m.kind), q[k].m.id) == ev
  {
    var k :| 0 <= k < |q| && EventKeys(q)[k] == Some(ev);
    assert !q[k].m.Ind?;
  }

  /** The event about to be armed is not pending yet. */
  lemma EventIsNew(s: State, d: D.State, ev: PendingRic)
    requires Carries(InFlight(s), d) && PcEvent(s.pc) == multiset{}
    requires !s.pc.Idle? && !s.pc.Forwarded?
    requires ev.id.reqId in NextTable(s).left && UpPacket(s.pc.e).id == HandleOf(NextTable(s).left[ev.id.reqId].x)
    ensures Some(ev) !in Outstanding(s)
  {
    forall q: seq<Wire> | q == s.ric.down || q == s.back || q == s.arrived
      ensures Some(ev) !in multiset(EventKeys(q))
    {
      if Some(ev) in multiset(EventKeys(q)) {
        EventsIn(q, ev);
        var k :| 0 <= k < |q| && !q[k].m.Ind? && PendingRic(EventOf(q[k].m.kind), q[k].m.id) == ev;
        NoSecondEvent(s, d, q, k, UpPacket(s.pc.e).id);
      }
    }
  }

  lemma ArmPending(ric: Ric, out: multiset<Option<PendingRic>>, fd: int, ev: PendingRic)
    requires PendingOk(ric, out) && FreshFd(ric, fd) && Some(ev) !in out
    ensures PendingOk(Armed(ric, fd, ev), out + multiset{Some(ev)})
  {
    var t := Armed(ric, fd, ev);
    assert t.pending[fd] == ev;
    forall k | Some(k) in out + multiset{Some(ev)} ensures exists f :: f in t.pending && t.pending[f] == k {
      if k != ev {
        var f :| f in ric.pending && ric.pending[f] == k;
        assert f in t.pending && t.pending[f] == k;
      }
    }
  }

  lemma ArmKeepsPending(s: State, d: D.State, fd: int)
    requires CanArm(s, fd) && Carries(InFlight(s), d) && PendingOk(s.ric, Outstanding(s))
    ensures PendingOk(AfterArm(s, fd).ric, Outstanding(AfterArm(s, fd)))
  {
    var ev := PendingRic(EventOf(s.pc.e.kind), s.pc.e.id.(reqId := s.pc.r));
    EventIsNew(s, d, ev);
    ArmPending(s.ric, Outstanding(s), fd, ev);
    assert Outstanding(AfterArm(s, fd)) == Outstanding(s) + multiset{Some(ev)};
  }

  lemma ArmKeeps(s: State, d: D.State, fd: int)
    requires Inv(s) && CanArm(s, fd) && Carries(InFlight(s), d)
    ensures Inv(AfterArm(s, fd))
  {
    assert NextTable(AfterArm(s, fd)) == NextTable(s);
    ArmKeepsPending(s, d, fd);
  }

  function DeleteEvent(s: State): PendingRic
    requires s.pc.Found?
  {
    PendingRic(SubscriptionDeletePending, s.pc.e.id.(reqId := s.pc.t.reqId))
  }

  lemma DeleteEventIsNew(s: State, d: D.State)
    requires s.pc.Found? && Carries(InFlight(s), d)
    requires Inverse(s.table) && PcOk(s.hist, s.table, s.ric.drawn, s.pc)
    ensures Some(DeleteEvent(s)) !in Outstanding(s)
  {
    EventIsNew(s, d, DeleteEvent(s));
  }

  lemma ArmDeleteKeepsPending(s: State, fd: int)
    requires CanArmDelete(s, fd) && PendingOk(s.ric, Outstanding(s)) && Some(DeleteEvent(s)) !in Outstanding(s)
    ensures PendingOk(AfterArmDelete(s, fd).ric, Outstanding(AfterArmDelete(s, fd)))
  {
    ArmPending(s.ric, Outstanding(s), fd, DeleteEvent(s));
    assert Outstanding(AfterArmDelete(s, fd)) == Outstanding(s) + multiset{Some(DeleteEvent(s))};
  }

  lemma ArmDeleteKeeps(s: State, d: D.State, fd: int)
    requires Inv(s) && CanArmDelete(s, fd) && Carries(InFlight(s), d)
    ensures Inv(AfterArmDelete(s, fd))
  {
    assert NextTable(AfterArmDelete(s, fd)) == NextTable(s);
    DeleteEventIsNew(s, d);
    ArmDeleteKeepsPending(s, fd);
  }

  lemma SendOutstanding(s: State)
    requires CanSend(s)
    ensures Outstanding(AfterSend(s)) == Outstanding(s)
  {
    var w := Wire(s.pc.e.node, Req(s.pc.e.kind, s.pc.e.id.(reqId := s.pc.r), s.pc.e.body));
    WireAppend(map[], s.ric.down, w);
  }

  lemma SendLinks(s: State)
    requires LinksOk(s) && CanSend(s) && PcOk(s.hist, s.table, s.ric.drawn, s.pc)
    ensures LinksOk(AfterSend(s))
  {
    assert NextTable(AfterSend(s)) == NextTable(s);
  }

  lemma SendKeeps(s: State)
    requires Inv(s) && CanSend(s)
    ensures Inv(AfterSend(s))
  {
    assert NextTable(AfterSend(s)) == NextTable(s);
    SendLinks(s);
    SendOutstanding(s);
  }

  lemma SendDeleteOutstanding(s: State)
    requires CanSendDelete(s)
    ensures Outstanding(AfterSendDelete(s)) == Outstanding(s)
  {
    var w := Wire(s.pc.t.node, Req(SubscriptionDelete, s.pc.e.id.(reqId := s.pc.t.reqId), 0));
    WireAppend(map[], s.ric.down, w);
  }

  lemma SendDeleteLinks(s: State)
    requires LinksOk(s) && CanSendDelete(s) && Inverse(s.table) && PcOk(s.hist, s.table, s.ric.drawn, s.pc)
    ensures LinksOk(AfterSendDelete(s))
  {
    assert NextTable(AfterSendDelete(s)) == NextTable(s);
  }

  lemma SendDeleteKeeps(s: State)
    requires Inv(s) && CanSendDelete(s)
    ensures Inv(AfterSendDelete(s))
  {
    assert NextTable(AfterSendDelete(s)) == NextTable(s);
    SendDeleteLinks(s);
    SendDeleteOutstanding(s);
  }

  lemma MapKeeps(s: State)
    requires Inv(s) && CanMap(s)
    ensures Inv(AfterMap(s))
  {
    NextTableOk(s);
    assert NextTable(AfterMap(s)) == NextTable(s) == AfterMap(s).table;
  }

  lemma LookupKeeps(s: State)
    requires Inv(s) && CanLookup(s)
    ensures Inv(AfterLookup(s))
  {
    assert NextTable(AfterLookup(s)) == NextTable(s);
  }

  // ------------------------------------------------------------ agents

  lemma ServeAgents(s: State, d: D.State, i: nat, ok: bool, out: int, fd: int)
    requires CanServe(s, i, ok, out, fd) && Represents(s, d)
    requires D.ChannelOk(d.reg, d.channel) && D.TimersOk(d.reg, d.channel, d.timers)
    requires AgentsOk(NextTable(s).left, s.agents) && DownOk(NextTable(s).left, s.ric.down)
    ensures AgentsOk(NextTable(s).left, ServedAgents(s.agents, s.ric.down[i], fd))
  {
    var w := s.ric.down[i];
    ServeEnabled(s, d, i, ok, out, fd);
    if w.m.kind == Subscription {
      assert DownHandle(s, i) !in d.timers;
      forall g | g in s.agents ensures s.agents[g] != w.m.id {
        assert HandleOf(NextTable(s).left[s.agents[g].reqId].x) in AgentHandles(NextTable(s).left, s.agents);
      }
    }
  }

  lemma ServeOutstanding(s: State, i: nat, ok: bool, out: int, fd: int)
    requires CanServe(s, i, ok, out, fd)
    ensures Outstanding(AfterServe(s, i, ok, out, fd)) == Outstanding(s)
  {
    WireRemove(map[], s.ric.down, i);
    WireAppend(map[], s.back, AnswerOf(s.ric.down[i], ok, out));
  }

  lemma ServeLinks(s: State, i: nat, ok: bool, out: int, fd: int)
    requires CanServe(s, i, ok, out, fd) && LinksOk(s)
    requires AgentsOk(NextTable(s).left, ServedAgents(s.agents, s.ric.down[i], fd))
    ensures LinksOk(AfterServe(s, i, ok, out, fd))
  {
    assert NextTable(AfterServe(s, i, ok, out, fd)) == NextTable(s);
  }

  lemma ServeKeeps(s: State, d: D.State, i: nat, ok: bool, out: int, fd: int)
    requires Inv(s) && Represents(s, d) && D.Inv(d) && CanServe(s, i, ok, out, fd)
    ensures Inv(AfterServe(s, i, ok, out, fd))
  {
    var t := AfterServe(s, i, ok, out, fd);
    assert NextTable(t) == NextTable(s);
    ServeAgents(s, d, i, ok, out, fd);
    ServeLinks(s, i, ok, out, fd);
    ServeOutstanding(s, i, ok, out, fd);
  }

  lemma IndicateOutstanding(s: State, f: AgentFd, body: int)
    requires CanIndicate(s, f)
    ensures Outstanding(AfterIndicate(s, f, body)) == Outstanding(s) + multiset{None}
  {
    WireAppend(map[], s.back, Wire(f.node, Ind(s.agents[f], body)));
  }

  lemma IndicateLinks(s: State, f: AgentFd, body: int)
    requires LinksOk(s) && CanIndicate(s, f)
    ensures LinksOk(AfterIndicate(s, f, body))
  {
    assert NextTable(AfterIndicate(s, f, body)) == NextTable(s);
  }

  lemma IndicateKeeps(s: State, f: AgentFd, body: int)
    requires Inv(s) && CanIndicate(s, f)
    ensures Inv(AfterIndicate(s, f, body))
  {
    assert NextTable(AfterIndicate(s, f, body)) == NextTable(s);
    IndicateLinks(s, f, body);
    IndicateOutstanding(s, f, body);
  }

  // ------------------------------------------------------------ RIC tasks

  lemma ReceiveOutstanding(s: State, i: nat)
    requires CanReceive(s, i)
    ensures Outstanding(AfterReceive(s, i)) == Outstanding(s)
  {
    WireRemove(map[], s.back, i);
    WireAppend(map[], s.arrived, s.back[i]);
  }

  lemma ReceiveLinks(s: State, i: nat)
    requires LinksOk(s) && CanReceive(s, i)
    ensures LinksOk(AfterReceive(s, i))
  {
    assert NextTable(AfterReceive(s, i)) == NextTable(s);
  }

  lemma ReceiveKeeps(s: State, i: nat)
    requires Inv(s) && CanReceive(s, i)
    ensures Inv(AfterReceive(s, i))
  {
    assert NextTable(AfterReceive(s, i)) == NextTable(s);
    ReceiveLinks(s, i);
    ReceiveOutstanding(s, i);
  }

  lemma StopPending(ric: Ric, out: multiset<Option<PendingRic>>, fd: int)
    requires PendingOk(ric, out) && fd in ric.pending
    ensures PendingOk(Stopped(ric, fd), out - multiset{Some(ric.pending[fd])})
  {
    var ev, t := ric.pending[fd], Stopped(ric, fd);
    var less := out - multiset{Some(ev)};
    forall k | Some(k) in less ensures exists f :: f in t.pending && t.pending[f] == k {
      var f :| f in ric.pending && ric.pending[f] == k;
      assert f in t.pending;
    }
  }

  lemma StopOutstanding(s: State, i: nat, fd: int)
    requires CanStop(s, i, fd)
    ensures Outstanding(AfterStop(s, i, fd)) == Outstanding(s) - multiset{Some(s.ric.pending[fd])}
  {
    WireRemove(map[], s.arrived, i);
  }

  lemma StopKeepsPending(s: State, i: nat, fd: int)
    requires PendingOk(s.ric, Outstanding(s)) && CanStop(s, i, fd)
    ensures PendingOk(AfterStop(s, i, fd).ric, Outstanding(AfterStop(s, i, fd)))
  {
    StopOutstanding(s, i, fd);
    StopPending(s.ric, Outstanding(s), fd);
  }

  lemma StopLinks(s: State, i: nat, fd: int)
    requires LinksOk(s) && CanStop(s, i, fd)
    ensures LinksOk(AfterStop(s, i, fd))
  {
    assert NextTable(AfterStop(s, i, fd)) == NextTable(s);
  }

  lemma StopKeeps(s: State, i: nat, fd: int)
    requires Inv(s) && CanStop(s, i, fd)
    ensures Inv(AfterStop(s, i, fd))
  {
    assert NextTable(AfterStop(s, i, fd)) == NextTable(s);
    StopLinks(s, i, fd);
    StopKeepsPending(s, i, fd);
  }

  lemma PassOutstanding(s: State, i: nat)
    requires CanPass(s, i)
    ensures Outstanding(s) == Outstanding(AfterPass(s, i)) + multiset{None}
  {
    WireRemove(map[], s.arrived, i);
  }

  lemma PassKeepsPending(s: State, i: nat)
    requires PendingOk(s.ric, Outstanding(s)) && CanPass(s, i)
    ensures PendingOk(AfterPass(s, i).ric, Outstanding(AfterPass(s, i)))
  {
    PassOutstanding(s, i);
  }

  lemma PassLinks(s: State, i: nat)
    requires LinksOk(s) && CanPass(s, i)
    ensures LinksOk(AfterPass(s, i))
  {
    assert NextTable(AfterPass(s, i)) == NextTable(s);
  }

  lemma PassKeeps(s: State, i: nat)
    requires Inv(s) && CanPass(s, i)
    ensures Inv(AfterPass(s, i))
  {
    assert NextTable(AfterPass(s, i)) == NextTable(s);
    PassLinks(s, i);
    PassKeepsPending(s, i);
  }

  lemma ForwardKeeps(s: State, i: nat)
    requires Inv(s) && CanForward(s, i)
    ensures Inv(AfterForward(s, i))
  {
    assert NextTable(AfterForward(s, i)) == NextTable(s) == s.table;
  }
}
