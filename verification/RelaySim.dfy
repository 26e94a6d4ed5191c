// Every step of the relay is a step of the direct channels, or no step at all.
module RelaySim {
  import opened Ids
  import opened Procedures
  import opened IdMap
  import opened RicCore
  import opened Relay
  import opened RelayInv
  import opened RelayFlight
  import D = Direct

  // ------------------------------------------------------------ the bag and the channels

  lemma CarriesOne(bag: multiset<Packet>, d: D.State, p: Packet)
    requires Carries(bag, d) && p in bag && !p.Ind?
    ensures p.id in d.channel && d.channel[p.id] == p && bag[p] == 1
  {
    assert bag[p] == Expected(d, p);
  }

  lemma CarriesInd(bag: multiset<Packet>, d: D.State, p: Packet)
    requires Carries(bag, d) && p in bag && p.Ind?
    ensures p in d.inds
  {
    assert bag[p] == Expected(d, p);
  }

  lemma CarryQuiet(bag: multiset<Packet>, after: multiset<Packet>, d: D.State)
    requires Carries(bag, d) && Changed(bag, after, multiset{}, multiset{})
    ensures Carries(after, d)
  {
  }

  lemma CarryRequest(bag: multiset<Packet>, after: multiset<Packet>, d: D.State, t: D.State, p: Packet)
    requires Carries(bag, d) && Changed(bag, after, multiset{}, multiset{p})
    requires p.Req? && p.id !in d.channel && t.channel == d.channel[p.id := p] && t.inds == d.inds
    ensures Carries(after, t)
  {
    forall m ensures after[m] == Expected(t, m) {
      assert bag[m] == Expected(d, m);
    }
  }

  lemma CarryServe(bag: multiset<Packet>, after: multiset<Packet>, d: D.State, h: Handle, ok: bool, out: int)
    requires Carries(bag, d) && D.Enabled(d, D.Serve(h, ok, out)) && d.channel[h].id == h
    requires Changed(bag, after, multiset{d.channel[h]}, multiset{D.AnswerTo(d.channel[h], ok, out)})
    ensures Carries(after, D.Apply(d, D.Serve(h, ok, out)))
  {
    var t := D.Apply(d, D.Serve(h, ok, out));
    var p, a := d.channel[h], D.AnswerTo(d.channel[h], ok, out);
    assert t.channel == d.channel[h := a] && t.inds == d.inds;
    forall m ensures after[m] == Expected(t, m) {
      assert bag[m] == Expected(d, m);
    }
  }

  lemma CarrySettle(bag: multiset<Packet>, after: multiset<Packet>, d: D.State, p: Packet)
    requires Carries(bag, d) && Changed(bag, after, multiset{p}, multiset{}) && p in bag && p.Ans?
    requires D.Enabled(d, D.Settle(p.id))
    ensures Carries(after, D.Apply(d, D.Settle(p.id)))
  {
    CarriesOne(bag, d, p);
    var t := D.Apply(d, D.Settle(p.id));
    forall m ensures after[m] == Expected(t, m) {
      assert bag[m] == Expected(d, m);
    }
  }

  lemma CarryIndicate(bag: multiset<Packet>, after: multiset<Packet>, d: D.State, t: D.State, p: Packet)
    requires Carries(bag, d) && Changed(bag, after, multiset{}, multiset{p})
    requires p.Ind? && t.channel == d.channel && t.inds == d.inds + multiset{p}
    ensures Carries(after, t)
  {
    forall m ensures after[m] == Expected(t, m) {
      assert bag[m] == Expected(d, m);
    }
  }

  lemma CarryHear(bag: multiset<Packet>, after: multiset<Packet>, d: D.State, p: Packet)
    requires Carries(bag, d) && Changed(bag, after, multiset{p}, multiset{}) && D.Enabled(d, D.Hear(p))
    ensures Carries(after, D.Apply(d, D.Hear(p)))
  {
    var t := D.Apply(d, D.Hear(p));
    assert t.inds == d.inds - multiset{p} && t.channel == d.channel;
    forall m ensures after[m] == Expected(t, m) {
      assert bag[m] == Expected(d, m);
    }
  }

  // ------------------------------------------------------------ xApps

  lemma StartSim(s: State, d: D.State, x: nat, issue: Issue)
    requires Represents(s, d) && KeysOk(s.nextKey, s.hist) && CanStart(s, x, issue)
    requires D.RegOk(d.reg, d.hist) && D.ChannelOk(d.reg, d.channel)
    ensures var a := D.Start(Handle(x, s.nextKey[x]), issue);
            D.Enabled(d, a) && Represents(AfterStart(s, x, issue), D.Apply(d, a))
  {
    var h := Handle(x, s.nextKey[x]);
    assert h !in d.hist && h !in d.channel;
    StartCarries(s, d, x, issue);
    StartMirrors(s, d, x, issue);
  }

  lemma StartCarries(s: State, d: D.State, x: nat, issue: Issue)
    requires CanStart(s, x, issue) && Carries(InFlight(s), d) && D.Enabled(d, D.Start(Handle(x, s.nextKey[x]), issue))
    requires Handle(x, s.nextKey[x]) !in d.channel
    ensures Carries(InFlight(AfterStart(s, x, issue)), D.Apply(d, D.Start(Handle(x, s.nextKey[x]), issue)))
  {
    StartFlight(s, x, issue);
    CarryRequest(InFlight(s), InFlight(AfterStart(s, x, issue)), d,
                 D.Apply(d, D.Start(Handle(x, s.nextKey[x]), issue)),
                 Req(issue.kind, Handle(x, s.nextKey[x]), issue.body));
  }

  lemma StartMirrors(s: State, d: D.State, x: nat, issue: Issue)
    requires CanStart(s, x, issue) && Mirrors(s, d) && D.Enabled(d, D.Start(Handle(x, s.nextKey[x]), issue))
    ensures Mirrors(AfterStart(s, x, issue), D.Apply(d, D.Start(Handle(x, s.nextKey[x]), issue)))
  {
    assert NextTable(AfterStart(s, x, issue)) == NextTable(s);
  }

  lemma DeleteSim(s: State, d: D.State, h: Handle)
    requires Represents(s, d) && CanDelete(s, h)
    requires D.ChannelOk(d.reg, d.channel)
    ensures var a := D.AskDelete(h); D.Enabled(d, a) && Represents(AfterDelete(s, h), D.Apply(d, a))
  {
    assert h !in d.channel;
    DeleteFlight(s, h);
    assert NextTable(AfterDelete(s, h)) == NextTable(s);
    CarryRequest(InFlight(s), InFlight(AfterDelete(s, h)), d, D.Apply(d, D.AskDelete(h)),
                 Req(SubscriptionDelete, h, 0));
  }

  lemma ForgetSim(s: State, d: D.State, h: Handle)
    requires Represents(s, d) && CanForget(s, h)
    ensures var a := D.Forget(h); D.Enabled(d, a) && Represents(AfterForget(s, h), D.Apply(d, a))
  {
    assert NextTable(AfterForget(s, h)) == NextTable(s);
    assert InFlight(AfterForget(s, h)) == InFlight(s);
    CarrySame(InFlight(s), d, D.Apply(d, D.Forget(h)));
  }

  lemma CarrySame(bag: multiset<Packet>, d: D.State, t: D.State)
    requires Carries(bag, d) && t.channel == d.channel && t.inds == d.inds
    ensures Carries(bag, t)
  {
    forall m ensures bag[m] == Expected(t, m) {
      assert bag[m] == Expected(d, m);
    }
  }

  lemma QueuedAtX(s: State, i: nat)
    requires i < |s.toX|
    ensures XPacket(s.toX[i]) in InFlight(s)
  {
    XRemove(s.toX, i);
  }

  lemma SettleEnabled(s: State, d: D.State, i: nat)
    requires Carries(InFlight(s), d) && d.reg == s.reg && D.ChannelOk(d.reg, d.channel) && CanSettle(s, i)
    ensures D.Enabled(d, D.Settle(HandleAtX(s.toX[i])))
    ensures HandleAtX(s.toX[i]) in d.channel && d.channel[HandleAtX(s.toX[i])] == XPacket(s.toX[i])
  {
    QueuedAtX(s, i);
    CarriesOne(InFlight(s), d, XPacket(s.toX[i]));
  }

  lemma SettleSim(s: State, d: D.State, i: nat)
    requires Represents(s, d) && D.ChannelOk(d.reg, d.channel) && CanSettle(s, i)
    ensures var a := D.Settle(HandleAtX(s.toX[i]));
            D.Enabled(d, a) && Represents(AfterSettle(s, i), D.Apply(d, a))
  {
    SettleEnabled(s, d, i);
    SettleCarries(s, d, i);
    SettleMirrors(s, d, i);
  }

  lemma SettleCarries(s: State, d: D.State, i: nat)
    requires CanSettle(s, i) && Carries(InFlight(s), d) && D.Enabled(d, D.Settle(HandleAtX(s.toX[i])))
    ensures Carries(InFlight(AfterSettle(s, i)), D.Apply(d, D.Settle(HandleAtX(s.toX[i]))))
  {
    var p := XPacket(s.toX[i]);
    assert p.id == HandleAtX(s.toX[i]) && p.Ans?;
    SettleFlight(s, i);
    QueuedAtX(s, i);
    CarrySettle(InFlight(s), InFlight(AfterSettle(s, i)), d, p);
  }

  lemma SettleMirrors(s: State, d: D.State, i: nat)
    requires CanSettle(s, i) && Mirrors(s, d) && D.Enabled(d, D.Settle(HandleAtX(s.toX[i])))
    requires d.channel[HandleAtX(s.toX[i])].kind == s.toX[i].m.kind
    ensures Mirrors(AfterSettle(s, i), D.Apply(d, D.Settle(HandleAtX(s.toX[i]))))
  {
    assert NextTable(AfterSettle(s, i)) == NextTable(s);
  }

  lemma CallAppend(calls: seq<Call>, c: Call)
    ensures multiset(CallPackets(calls + [c])) == multiset(CallPackets(calls)) + multiset{CallPacket(c)}
  {
    assert CallPackets(calls + [c]) == CallPackets(calls) + [CallPacket(c)];
  }

  lemma HearSim(s: State, d: D.State, i: nat)
    requires Represents(s, d) && CanHear(s, i)
    ensures var a := D.Hear(XPacket(s.toX[i]));
            D.Enabled(d, a) && Represents(AfterHear(s, i), D.Apply(d, a))
  {
    QueuedAtX(s, i);
    CarriesInd(InFlight(s), d, XPacket(s.toX[i]));
    HearCarries(s, d, i);
    HearMirrors(s, d, i);
  }

  lemma HearCarries(s: State, d: D.State, i: nat)
    requires CanHear(s, i) && Carries(InFlight(s), d) && D.Enabled(d, D.Hear(XPacket(s.toX[i])))
    ensures Carries(InFlight(AfterHear(s, i)), D.Apply(d, D.Hear(XPacket(s.toX[i]))))
  {
    HearFlight(s, i);
    CarryHear(InFlight(s), InFlight(AfterHear(s, i)), d, XPacket(s.toX[i]));
  }

  lemma HearMirrors(s: State, d: D.State, i: nat)
    requires CanHear(s, i) && Mirrors(s, d) && D.Enabled(d, D.Hear(XPacket(s.toX[i])))
    ensures Mirrors(AfterHear(s, i), D.Apply(d, D.Hear(XPacket(s.toX[i]))))
  {
    var h := HandleAtX(s.toX[i]);
    assert NextTable(AfterHear(s, i)) == NextTable(s);
    if h in s.reg {
      var c := Call(h.xapp, h.key, s.reg[h].issue.callback, s.reg[h].issue.node, s.toX[i].m.body);
      assert CallPacket(c) == XPacket(s.toX[i]);
      CallAppend(s.calls, c);
    } else {
      XAppend(s.dropped, s.toX[i]);
    }
  }

  // ------------------------------------------------------------ agents

  lemma QueuedDown(s: State, i: nat)
    requires i < |s.ric.down|
    ensures WirePacket(NextTable(s).left, s.ric.down[i]) in InFlight(s)
  {
    WireRemove(NextTable(s).left, s.ric.down, i);
  }

  /** Two timers of agents never stand for the same procedure. */
  lemma TimersDistinct(t: Table, hist: map<Handle, Issue>, drawn: nat, agents: map<AgentFd, RicGenId>,
                       f: AgentFd, g: AgentFd)
    requires TableOk(t, hist, drawn) && AgentsOk(t.left, agents) && f in agents && g in agents
    requires HandleOf(t.left[agents[f].reqId].x) == HandleOf(t.left[agents[g].reqId].x)
    ensures f == g
  {
    var rf, rg := agents[f].reqId, agents[g].reqId;
    assert OriginOk(hist, t.left[rf]) && OriginOk(hist, t.left[rg]);
    assert t.left[rf].x == t.left[rg].x;
    assert rf == rg;
    assert agents[f] == agents[g];
  }

  lemma AddTimer(left: map<nat, Origin>, agents: map<AgentFd, RicGenId>, f: AgentFd, id: RicGenId)
    requires f !in agents && id.reqId in left
    ensures AgentHandles(left, agents[f := id]) == AgentHandles(left, agents) + {HandleOf(left[id.reqId].x)}
  {
    var after := agents[f := id];
    forall h | h in AgentHandles(left, agents) ensures h in AgentHandles(left, after) {
      var g :| g in agents && agents[g].reqId in left && h == HandleOf(left[agents[g].reqId].x);
      assert g in after && after[g] == agents[g];
    }
    assert f in after && after[f] == id;
  }

  lemma RemoveTimer(t: Table, hist: map<Handle, Issue>, drawn: nat, agents: map<AgentFd, RicGenId>, f: AgentFd)
    requires TableOk(t, hist, drawn) && AgentsOk(t.left, agents) && f in agents
    ensures AgentHandles(t.left, agents - {f})
            == AgentHandles(t.left, agents) - {HandleOf(t.left[agents[f].reqId].x)}
  {
    var after := agents - {f};
    var gone := HandleOf(t.left[agents[f].reqId].x);
    forall h | h in AgentHandles(t.left, agents) && h != gone ensures h in AgentHandles(t.left, after) {
      var g :| g in agents && agents[g].reqId in t.left && h == HandleOf(t.left[agents[g].reqId].x);
      assert g in after && after[g] == agents[g];
    }
    forall g | g in after ensures HandleOf(t.left[after[g].reqId].x) != gone {
      if HandleOf(t.left[after[g].reqId].x) == gone {
        TimersDistinct(t, hist, drawn, agents, f, g);
      }
    }
  }

  lemma NextTableOk(s: State)
    requires TableOk(s.table, s.hist, s.ric.drawn) && PcOk(s.hist, s.table, s.ric.drawn, s.pc)
    ensures TableOk(NextTable(s), s.hist, s.ric.drawn)
  {
    if (s.pc.GotId? || s.pc.TimerOn? || s.pc.Forwarded?) && s.pc.e.E42Request? {
      AddedIsInverse(s.table, s.pc.e.node, s.pc.r, XOf(s.pc.e));
      DrawOfReqId(s.ric.drawn - 1);
    }
  }

  /** The agent-side handle of a queued request. */
  function DownHandle(s: State, i: nat): Handle
    requires i < |s.ric.down|
  {
    WirePacket(NextTable(s).left, s.ric.down[i]).id
  }

  lemma ServeEnabled(s: State, d: D.State, i: nat, ok: bool, out: int, fd: int)
    requires CanServe(s, i, ok, out, fd) && Carries(InFlight(s), d)
    requires DownOk(NextTable(s).left, s.ric.down) && d.timers == AgentHandles(NextTable(s).left, s.agents)
    ensures D.Enabled(d, D.Serve(DownHandle(s, i), ok, out))
    ensures DownHandle(s, i) in d.channel && d.channel[DownHandle(s, i)] == WirePacket(NextTable(s).left, s.ric.down[i])
  {
    QueuedDown(s, i);
    CarriesOne(InFlight(s), d, WirePacket(NextTable(s).left, s.ric.down[i]));
    if s.ric.down[i].m.kind == SubscriptionDelete {
      var f := AgentFd(s.ric.down[i].node, fd);
      assert f in s.agents && s.agents[f].reqId in NextTable(s).left;
    }
  }

  lemma AnswerPacket(left: map<nat, Origin>, w: Wire, ok: bool, out: int)
    requires w.m.Req?
    ensures WirePacket(left, AnswerOf(w, ok, out)) == D.AnswerTo(WirePacket(left, w), ok, out)
  {
  }

  lemma ServeCarries(s: State, d: D.State, i: nat, ok: bool, out: int, fd: int)
    requires CanServe(s, i, ok, out, fd) && Carries(InFlight(s), d) && D.Enabled(d, D.Serve(DownHandle(s, i), ok, out))
    requires d.channel[DownHandle(s, i)] == WirePacket(NextTable(s).left, s.ric.down[i])
    ensures Carries(InFlight(AfterServe(s, i, ok, out, fd)), D.Apply(d, D.Serve(DownHandle(s, i), ok, out)))
  {
    AnswerPacket(NextTable(s).left, s.ric.down[i], ok, out);
    ServeFlight(s, i, ok, out, fd);
    CarryServe(InFlight(s), InFlight(AfterServe(s, i, ok, out, fd)), d, DownHandle(s, i), ok, out);
  }

  lemma ServeTimers(t: Table, hist: map<Handle, Issue>, drawn: nat, agents: map<AgentFd, RicGenId>, w: Wire, fd: int)
    requires TableOk(t, hist, drawn) && AgentsOk(t.left, agents) && w.m.Req? && Matches(t.left, w.node, w.m.id)
    requires w.m.kind == Subscription ==> AgentFd(w.node, fd) !in agents
    requires w.m.kind == SubscriptionDelete ==> AgentFd(w.node, fd) in agents && agents[AgentFd(w.node, fd)] == w.m.id
    ensures AgentHandles(t.left, ServedAgents(agents, w, fd))
            == D.ServedTimers(AgentHandles(t.left, agents), WirePacket(t.left, w).id, w.m.kind)
  {
    match w.m.kind {
      case Subscription => AddTimer(t.left, agents, AgentFd(w.node, fd), w.m.id);
      case SubscriptionDelete => RemoveTimer(t, hist, drawn, agents, AgentFd(w.node, fd));
      case Control =>
    }
  }

  lemma ServeMirrors(s: State, d: D.State, i: nat, ok: bool, out: int, fd: int)
    requires CanServe(s, i, ok, out, fd) && Mirrors(s, d) && D.Enabled(d, D.Serve(DownHandle(s, i), ok, out))
    requires d.channel[DownHandle(s, i)] == WirePacket(NextTable(s).left, s.ric.down[i])
    requires TableOk(NextTable(s), s.hist, s.ric.drawn) && AgentsOk(NextTable(s).left, s.agents)
    requires DownOk(NextTable(s).left, s.ric.down)
    ensures Mirrors(AfterServe(s, i, ok, out, fd), D.Apply(d, D.Serve(DownHandle(s, i), ok, out)))
  {
    assert NextTable(AfterServe(s, i, ok, out, fd)) == NextTable(s);
    ServeTimers(NextTable(s), s.hist, s.ric.drawn, s.agents, s.ric.down[i], fd);
  }

  lemma ServeSim(s: State, d: D.State, i: nat, ok: bool, out: int, fd: int)
    requires CanServe(s, i, ok, out, fd) && Represents(s, d)
    requires TableOk(NextTable(s), s.hist, s.ric.drawn) && AgentsOk(NextTable(s).left, s.agents)
    requires DownOk(NextTable(s).left, s.ric.down)
    ensures var a := D.Serve(DownHandle(s, i), ok, out);
            D.Enabled(d, a) && Represents(AfterServe(s, i, ok, out, fd), D.Apply(d, a))
  {
    ServeEnabled(s, d, i, ok, out, fd);
    ServeCarries(s, d, i, ok, out, fd);
    ServeMirrors(s, d, i, ok, out, fd);
  }

  /** The procedure an agent's timer serves. */
  function TimerHandle(s: State, f: AgentFd): Handle
    requires f in s.agents
  {
    WirePacket(NextTable(s).left, Wire(f.node, Ind(s.agents[f], 0))).id
  }

  lemma IndicateSim(s: State, d: D.State, f: AgentFd, body: int)
    requires Represents(s, d) && AgentsOk(NextTable(s).left, s.agents) && CanIndicate(s, f)
    ensures var a := D.Indicate(TimerHandle(s, f), body);
            D.Enabled(d, a) && Represents(AfterIndicate(s, f, body), D.Apply(d, a))
  {
    var left := NextTable(s).left;
    var w := Wire(f.node, Ind(s.agents[f], body));
    var a := D.Indicate(TimerHandle(s, f), body);
    IndicateFlight(s, f, body);
    CarryIndicate(InFlight(s), InFlight(AfterIndicate(s, f, body)), d, D.Apply(d, a), WirePacket(left, w));
    WireAppend(left, s.made, w);
  }

  // ------------------------------------------------------------ steps no channel sees

  lemma QuietSim(s: State, t: State, d: D.State)
    requires Represents(s, d) && Changed(InFlight(s), InFlight(t), multiset{}, multiset{})
    requires NextTable(t) == NextTable(s) && t.agents == s.agents
    requires t.reg == s.reg && t.hist == s.hist
    requires t.made == s.made && t.calls == s.calls && t.dropped == s.dropped
    ensures Represents(t, d)
  {
    CarryQuiet(InFlight(s), InFlight(t), d);
  }

  lemma TimersStable(left: map<nat, Origin>, r: nat, o: Origin, agents: map<AgentFd, RicGenId>)
    requires r !in left && AgentsOk(left, agents)
    ensures AgentHandles(left[r := o], agents) == AgentHandles(left, agents)
  {
    var more := left[r := o];
    assert forall f :: f in agents ==> agents[f].reqId in left && more[agents[f].reqId] == left[agents[f].reqId];
    forall h | h in AgentHandles(left, agents) ensures h in AgentHandles(more, agents) {
      var f :| f in agents && agents[f].reqId in left && h == HandleOf(left[agents[f].reqId].x);
      assert agents[f].reqId in more;
    }
  }

  lemma DrawSim(s: State, d: D.State)
    requires CanDraw(s) && Represents(s, d) && LinksOk(s) && ReqIdOf(s.ric.drawn) !in s.table.left
    ensures Represents(AfterDraw(s), d)
  {
    var t := AfterDraw(s);
    DrawFlight(s);
    TimersStable(s.table.left, ReqIdOf(s.ric.drawn), Origin(s.pc.e.node, XOf(s.pc.e)), s.agents);
    assert NextTable(t).left == s.table.left[ReqIdOf(s.ric.drawn) := Origin(s.pc.e.node, XOf(s.pc.e))];
    assert Mirrors(t, d);
  }

  lemma TaskSim(s: State, d: D.State, st: Step)
    requires st.TReceive? || st.TStop? || st.TPass? || st.TForward?
    requires Represents(s, d) && Enabled(s, st)
    ensures Represents(Apply(s, st), d)
  {
    match st {
      case TReceive(i) => ReceiveFlight(s, i);
      case TStop(i, fd) => StopFlight(s, i, fd);
      case TPass(i) => PassFlight(s, i);
      case TForward(i) => ForwardFlight(s, i);
    }
    assert NextTable(Apply(s, st)) == NextTable(s);
    QuietSim(s, Apply(s, st), d);
  }

  /** Arming a timer and using the translation table move no message. */
  lemma StillSim(s: State, t: State, d: D.State)
    requires Represents(s, d) && NextTable(t) == NextTable(s) && PcBag(t.pc) == PcBag(s.pc)
    requires t.up == s.up && t.ric.down == s.ric.down && t.back == s.back && t.arrived == s.arrived
    requires t.stopped == s.stopped && t.toX == s.toX && t.agents == s.agents
    requires t.reg == s.reg && t.hist == s.hist
    requires t.made == s.made && t.calls == s.calls && t.dropped == s.dropped
    ensures Represents(t, d)
  {
    assert InFlight(t) == InFlight(s);
  }

  lemma ArmSim(s: State, d: D.State, fd: int)
    requires Represents(s, d) && CanArm(s, fd)
    ensures Represents(AfterArm(s, fd), d)
  {
    assert NextTable(AfterArm(s, fd)) == NextTable(s);
    StillSim(s, AfterArm(s, fd), d);
  }

  lemma ArmDeleteSim(s: State, d: D.State, fd: int)
    requires Represents(s, d) && CanArmDelete(s, fd)
    ensures Represents(AfterArmDelete(s, fd), d)
  {
    assert NextTable(AfterArmDelete(s, fd)) == NextTable(s);
    StillSim(s, AfterArmDelete(s, fd), d);
  }

  lemma MapSim(s: State, d: D.State)
    requires Represents(s, d) && CanMap(s)
    ensures Represents(AfterMap(s), d)
  {
    assert NextTable(AfterMap(s)) == NextTable(s);
    StillSim(s, AfterMap(s), d);
  }

  lemma LookupSim(s: State, d: D.State)
    requires Represents(s, d) && CanLookup(s)
    ensures Represents(AfterLookup(s), d)
  {
    assert NextTable(AfterLookup(s)) == NextTable(s);
    StillSim(s, AfterLookup(s), d);
  }

  lemma TakeSim(s: State, d: D.State, i: nat)
    requires Represents(s, d) && CanTake(s, i)
    ensures Represents(AfterTake(s, i), d)
  {
    assert NextTable(AfterTake(s, i)) == NextTable(s);
    TakeFlight(s, i);
    QuietSim(s, AfterTake(s, i), d);
  }

  lemma SendSim(s: State, d: D.State)
    requires Represents(s, d) && CanSend(s)
    ensures Represents(AfterSend(s), d)
  {
    assert NextTable(AfterSend(s)) == NextTable(s);
    SendFlight(s);
    QuietSim(s, AfterSend(s), d);
  }

  lemma SendDeleteSim(s: State, d: D.State)
    requires Represents(s, d) && CanSendDelete(s)
    requires WirePacket(NextTable(s).left, DeleteRequest(s)) == UpPacket(s.pc.e)
    ensures Represents(AfterSendDelete(s), d)
  {
    assert NextTable(AfterSendDelete(s)) == NextTable(s);
    SendDeleteFlight(s);
    QuietSim(s, AfterSendDelete(s), d);
  }
}
