// How each step of the relay moves messages: what it does to the bag of messages in
// flight once relay-internal identifiers are erased.
module RelayFlight {
  import opened Ids
  import opened Procedures
  import opened IdMap
  import opened RicCore
  import opened Relay
  import opened RelayInv

  lemma BagRemove<T>(q: seq<T>, i: nat)
    requires i < |q|
    ensures multiset(q) == multiset(RemoveAt(q, i)) + multiset{q[i]}
  {
    assert q == q[..i] + [q[i]] + q[i + 1..];
  }

  lemma UpRemove(q: seq<E42Msg>, i: nat)
    requires i < |q|
    ensures multiset(UpPackets(q)) == multiset(UpPackets(RemoveAt(q, i))) + multiset{UpPacket(q[i])}
  {
    assert UpPackets(RemoveAt(q, i)) == RemoveAt(UpPackets(q), i);
    BagRemove(UpPackets(q), i);
  }

  lemma UpAppend(q: seq<E42Msg>, e: E42Msg)
    ensures multiset(UpPackets(q + [e])) == multiset(UpPackets(q)) + multiset{UpPacket(e)}
  {
    assert UpPackets(q + [e]) == UpPackets(q) + [UpPacket(e)];
  }

  lemma WireRemove(left: map<nat, Origin>, q: seq<Wire>, i: nat)
    requires i < |q|
    ensures multiset(WirePackets(left, q))
            == multiset(WirePackets(left, RemoveAt(q, i))) + multiset{WirePacket(left, q[i])}
    ensures multiset(EventKeys(q)) == multiset(EventKeys(RemoveAt(q, i))) + multiset{EventKey(q[i].m)}
  {
    assert WirePackets(left, RemoveAt(q, i)) == RemoveAt(WirePackets(left, q), i);
    assert EventKeys(RemoveAt(q, i)) == RemoveAt(EventKeys(q), i);
    BagRemove(WirePackets(left, q), i);
    BagRemove(EventKeys(q), i);
  }

  lemma WireAppend(left: map<nat, Origin>, q: seq<Wire>, w: Wire)
    ensures multiset(WirePackets(left, q + [w])) == multiset(WirePackets(left, q)) + multiset{WirePacket(left, w)}
    ensures multiset(EventKeys(q + [w])) == multiset(EventKeys(q)) + multiset{EventKey(w.m)}
  {
    assert WirePackets(left, q + [w]) == WirePackets(left, q) + [WirePacket(left, w)];
    assert EventKeys(q + [w]) == EventKeys(q) + [EventKey(w.m)];
  }

  /** Recording a new id does not change what the queued messages mean. */
  lemma WireStable(left: map<nat, Origin>, r: nat, o: Origin, q: seq<Wire>)
    requires r !in left
    requires AllIn(left, q)
    ensures WirePackets(left[r := o], q) == WirePackets(left, q)
  {
  }

  lemma XRemove(q: seq<XWire>, i: nat)
    requires i < |q|
    ensures multiset(XPackets(q)) == multiset(XPackets(RemoveAt(q, i))) + multiset{XPacket(q[i])}
  {
    assert XPackets(RemoveAt(q, i)) == RemoveAt(XPackets(q), i);
    BagRemove(XPackets(q), i);
  }

  lemma XAppend(q: seq<XWire>, p: XWire)
    ensures multiset(XPackets(q + [p])) == multiset(XPackets(q)) + multiset{XPacket(p)}
  {
    assert XPackets(q + [p]) == XPackets(q) + [XPacket(p)];
  }

  /** `after` is `before` with `gone` taken out and `come` put in. */
  ghost predicate Changed(before: multiset<Packet>, after: multiset<Packet>,
                          gone: multiset<Packet>, come: multiset<Packet>)
  {
    forall m :: after[m] + gone[m] == before[m] + come[m]
  }

  lemma TakenFromX(left: map<nat, Origin>, up: seq<E42Msg>, held: multiset<Packet>, down: seq<Wire>,
                   back: seq<Wire>, arrived: seq<Wire>, stopped: seq<Wire>, toX: seq<XWire>, i: nat)
    requires i < |toX|
    ensures Changed(Flight(left, up, held, down, back, arrived, stopped, toX),
                    Flight(left, up, held, down, back, arrived, stopped, RemoveAt(toX, i)),
                    multiset{XPacket(toX[i])}, multiset{})
  {
    XRemove(toX, i);
  }

  lemma TakenUp(left: map<nat, Origin>, up: seq<E42Msg>, down: seq<Wire>,
                back: seq<Wire>, arrived: seq<Wire>, stopped: seq<Wire>, toX: seq<XWire>, i: nat)
    requires i < |up|
    ensures Changed(Flight(left, up, multiset{}, down, back, arrived, stopped, toX),
                    Flight(left, RemoveAt(up, i), multiset{UpPacket(up[i])}, down, back, arrived, stopped, toX),
                    multiset{}, multiset{})
  {
    UpRemove(up, i);
  }

  lemma AddedUp(left: map<nat, Origin>, up: seq<E42Msg>, held: multiset<Packet>, down: seq<Wire>,
                back: seq<Wire>, arrived: seq<Wire>, stopped: seq<Wire>, toX: seq<XWire>, e: E42Msg)
    ensures Changed(Flight(left, up, held, down, back, arrived, stopped, toX),
                    Flight(left, up + [e], held, down, back, arrived, stopped, toX),
                    multiset{}, multiset{UpPacket(e)})
  {
    UpAppend(up, e);
  }

  lemma SentDown(left: map<nat, Origin>, up: seq<E42Msg>, p: Packet, down: seq<Wire>, w: Wire,
                 back: seq<Wire>, arrived: seq<Wire>, stopped: seq<Wire>, toX: seq<XWire>)
    requires WirePacket(left, w) == p
    ensures Changed(Flight(left, up, multiset{p}, down, back, arrived, stopped, toX),
                    Flight(left, up, multiset{}, down + [w], back, arrived, stopped, toX),
                    multiset{}, multiset{})
  {
    WireAppend(left, down, w);
  }

  // --------------------------------------------------------------- steps of an xApp

  lemma StartFlight(s: State, x: nat, issue: Issue)
    requires CanStart(s, x, issue)
    ensures Changed(InFlight(s), InFlight(AfterStart(s, x, issue)), multiset{},
                    multiset{Req(issue.kind, Handle(x, s.nextKey[x]), issue.body)})
  {
    var e := E42Request(x, issue.node, issue.kind, RicGenId(s.nextKey[x], 0, issue.ranFunc), issue.body);
    assert NextTable(AfterStart(s, x, issue)) == NextTable(s);
    AddedUp(NextTable(s).left, s.up, PcBag(s.pc), s.ric.down, s.back, s.arrived, s.stopped, s.toX, e);
    assert UpPacket(e) == Req(issue.kind, Handle(x, s.nextKey[x]), issue.body);
  }

  lemma DeleteFlight(s: State, h: Handle)
    requires CanDelete(s, h)
    ensures Changed(InFlight(s), InFlight(AfterDelete(s, h)), multiset{}, multiset{Req(SubscriptionDelete, h, 0)})
  {
    assert NextTable(AfterDelete(s, h)) == NextTable(s);
    AddedUp(NextTable(s).left, s.up, PcBag(s.pc), s.ric.down, s.back, s.arrived, s.stopped, s.toX,
            E42Delete(h.xapp, RicGenId(h.key, 0, s.reg[h].issue.ranFunc)));
  }

  lemma SettleFlight(s: State, i: nat)
    requires CanSettle(s, i)
    ensures Changed(InFlight(s), InFlight(AfterSettle(s, i)), multiset{XPacket(s.toX[i])}, multiset{})
  {
    assert NextTable(AfterSettle(s, i)) == NextTable(s);
    TakenFromX(NextTable(s).left, s.up, PcBag(s.pc), s.ric.down, s.back, s.arrived, s.stopped, s.toX, i);
  }

  lemma HearFlight(s: State, i: nat)
    requires CanHear(s, i)
    ensures Changed(InFlight(s), InFlight(AfterHear(s, i)), multiset{XPacket(s.toX[i])}, multiset{})
  {
    assert NextTable(AfterHear(s, i)) == NextTable(s);
    TakenFromX(NextTable(s).left, s.up, PcBag(s.pc), s.ric.down, s.back, s.arrived, s.stopped, s.toX, i);
  }

  // --------------------------------------------------------------- steps of the iApp

  lemma TakeFlight(s: State, i: nat)
    requires CanTake(s, i)
    ensures Changed(InFlight(s), InFlight(AfterTake(s, i)), multiset{}, multiset{})
  {
    assert NextTable(AfterTake(s, i)) == NextTable(s);
    TakenUp(NextTable(s).left, s.up, s.ric.down, s.back, s.arrived, s.stopped, s.toX, i);
  }

  predicate AllIn(left: map<nat, Origin>, q: seq<Wire>) {
    forall i :: 0 <= i < |q| ==> q[i].m.id.reqId in left
  }

  lemma FlightStable(left: map<nat, Origin>, r: nat, o: Origin, up: seq<E42Msg>, held: multiset<Packet>,
                     down: seq<Wire>, back: seq<Wire>, arrived: seq<Wire>, stopped: seq<Wire>, toX: seq<XWire>)
    requires r !in left
    requires AllIn(left, down) && AllIn(left, back) && AllIn(left, arrived) && AllIn(left, stopped)
    ensures Flight(left[r := o], up, held, down, back, arrived, stopped, toX)
            == Flight(left, up, held, down, back, arrived, stopped, toX)
  {
    WireStable(left, r, o, down);
    WireStable(left, r, o, back);
    WireStable(left, r, o, arrived);
    WireStable(left, r, o, stopped);
  }

  /** From here on the drawn id counts as recorded. */
  lemma DrawFlight(s: State)
    requires CanDraw(s)
    requires ReqIdOf(s.ric.drawn) !in s.table.left && AllIn(s.table.left, s.made)
    requires AllIn(s.table.left, s.ric.down) && AllIn(s.table.left, s.back)
    requires AllIn(s.table.left, s.arrived) && AllIn(s.table.left, s.stopped)
    ensures InFlight(AfterDraw(s)) == InFlight(s)
    ensures WirePackets(NextTable(AfterDraw(s)).left, s.made) == WirePackets(s.table.left, s.made)
  {
    var r, o := ReqIdOf(s.ric.drawn), Origin(s.pc.e.node, XOf(s.pc.e));
    var t := AfterDraw(s);
    assert NextTable(t).left == s.table.left[r := o] && NextTable(s).left == s.table.left;
    assert PcBag(t.pc) == PcBag(s.pc) && t.ric.down == s.ric.down;
    FlightStable(s.table.left, r, o, s.up, PcBag(s.pc), s.ric.down, s.back, s.arrived, s.stopped, s.toX);
    WireStable(s.table.left, r, o, s.made);
  }

  lemma SendFlight(s: State)
    requires CanSend(s)
    ensures Changed(InFlight(s), InFlight(AfterSend(s)), multiset{}, multiset{})
  {
    var w := Wire(s.pc.e.node, Req(s.pc.e.kind, s.pc.e.id.(reqId := s.pc.r), s.pc.e.body));
    assert NextTable(AfterSend(s)) == NextTable(s);
    SentDown(NextTable(s).left, s.up, UpPacket(s.pc.e), s.ric.down, w, s.back, s.arrived, s.stopped, s.toX);
  }

  function DeleteRequest(s: State): Wire
    requires s.pc.DeleteTimerOn?
  {
    Wire(s.pc.t.node, Req(SubscriptionDelete, s.pc.e.id.(reqId := s.pc.t.reqId), 0))
  }

  lemma DeleteWire(s: State)
    requires s.pc.DeleteTimerOn? && Inverse(s.table) && PcOk(s.hist, s.table, s.ric.drawn, s.pc)
    ensures WirePacket(NextTable(s).left, DeleteRequest(s)) == UpPacket(s.pc.e)
  {
  }

  lemma SendDeleteFlight(s: State)
    requires CanSendDelete(s) && WirePacket(NextTable(s).left, DeleteRequest(s)) == UpPacket(s.pc.e)
    ensures Changed(InFlight(s), InFlight(AfterSendDelete(s)), multiset{}, multiset{})
  {
    assert NextTable(AfterSendDelete(s)) == NextTable(s);
    SentDown(NextTable(s).left, s.up, UpPacket(s.pc.e), s.ric.down, DeleteRequest(s),
             s.back, s.arrived, s.stopped, s.toX);
  }

  // --------------------------------------------------------------- steps of agents and tasks

  lemma ServeFlight(s: State, i: nat, ok: bool, out: int, fd: int)
    requires CanServe(s, i, ok, out, fd)
    ensures var left := NextTable(s).left;
            Changed(InFlight(s), InFlight(AfterServe(s, i, ok, out, fd)),
                    multiset{WirePacket(left, s.ric.down[i])},
                    multiset{WirePacket(left, AnswerOf(s.ric.down[i], ok, out))})
  {
    WireRemove(NextTable(s).left, s.ric.down, i);
    WireAppend(NextTable(s).left, s.back, AnswerOf(s.ric.down[i], ok, out));
  }

  lemma IndicateFlight(s: State, f: AgentFd, body: int)
    requires CanIndicate(s, f)
    ensures Changed(InFlight(s), InFlight(AfterIndicate(s, f, body)), multiset{},
                    multiset{WirePacket(NextTable(s).left, Wire(f.node, Ind(s.agents[f], body)))})
  {
    assert NextTable(AfterIndicate(s, f, body)) == NextTable(s);
    WireAppend(NextTable(s).left, s.back, Wire(f.node, Ind(s.agents[f], body)));
  }

  lemma ReceiveFlight(s: State, i: nat)
    requires CanReceive(s, i)
    ensures Changed(InFlight(s), InFlight(AfterReceive(s, i)), multiset{}, multiset{})
  {
    WireRemove(NextTable(s).left, s.back, i);
    WireAppend(NextTable(s).left, s.arrived, s.back[i]);
  }

  lemma OneOnward(left: map<nat, Origin>, up: seq<E42Msg>, held: multiset<Packet>, down: seq<Wire>,
                  back: seq<Wire>, arrived: seq<Wire>, stopped: seq<Wire>, toX: seq<XWire>, i: nat)
    requires i < |arrived|
    ensures Changed(Flight(left, up, held, down, back, arrived, stopped, toX),
                    Flight(left, up, held, down, back, RemoveAt(arrived, i), stopped + [arrived[i]], toX),
                    multiset{}, multiset{})
  {
    WireRemove(left, arrived, i);
    WireAppend(left, stopped, arrived[i]);
  }

  lemma StopFlight(s: State, i: nat, fd: int)
    requires CanStop(s, i, fd)
    ensures Changed(InFlight(s), InFlight(AfterStop(s, i, fd)), multiset{}, multiset{})
  {
    assert NextTable(AfterStop(s, i, fd)) == NextTable(s);
    OneOnward(NextTable(s).left, s.up, PcBag(s.pc), s.ric.down, s.back, s.arrived, s.stopped, s.toX, i);
  }

  lemma PassFlight(s: State, i: nat)
    requires CanPass(s, i)
    ensures Changed(InFlight(s), InFlight(AfterPass(s, i)), multiset{}, multiset{})
  {
    assert NextTable(AfterPass(s, i)) == NextTable(s);
    OneOnward(NextTable(s).left, s.up, PcBag(s.pc), s.ric.down, s.back, s.arrived, s.stopped, s.toX, i);
  }

  lemma ForwardFlight(s: State, i: nat)
    requires CanForward(s, i)
    ensures Changed(InFlight(s), InFlight(AfterForward(s, i)), multiset{}, multiset{})
  {
    WireRemove(s.table.left, s.stopped, i);
    XAppend(s.toX, Translated(s.table.left, s.stopped[i].m));
  }
}
