// The iApp's handlers, each as the one uninterrupted method the source writes it as, and
// the steps of the interleaved machine that each of them amounts to
// (src/ric/iApp/msg_handler_iapp.c).
module IApp {
  import opened Ids
  import opened Procedures
  import opened IdMap
  import opened RicCore
  import opened Relay

  class E42IApp {
    const ric: NearRic
    const mapRicId: MapRicId
    var outbox: seq<XWire>

    ghost predicate Valid()
      reads this, ric, mapRicId
    {
      ric.Valid() && mapRicId.Valid()
    }

    constructor ()
      ensures Valid() && fresh(ric) && fresh(mapRicId)
      ensures ric.Model() == FRESH_RIC && mapRicId.Model() == EMPTY_TABLE && outbox == []
    {
      ric := new NearRic();
      mapRicId := new MapRicId();
      outbox := [];
    }

    /** Subscription and control requests. The xApp's own identifier is copied before the
        RIC overwrites it in the message, so the table gets the xApp's and not the RIC's. */
    method HandleRequest(xapp: nat, node: NodeId, msg: RicRequest, fd: int)
      requires Valid() && msg.kind != SubscriptionDelete && FreshFd(ric.Model(), fd)
      requires ReqIdOf(ric.Model().drawn) !in mapRicId.left
      requires XappRicId(msg.id, xapp) !in mapRicId.right
      modifies ric, mapRicId, msg
      ensures Valid()
      ensures ric.Model() == Requested(old(ric.Model()), E42Request(xapp, node, msg.kind, old(msg.id), msg.body), fd)
      ensures mapRicId.Model() == Added(old(mapRicId.Model()), node, ReqIdOf(old(ric.Model()).drawn),
                                          XappRicId(old(msg.id), xapp))
    {
      var x := XappRicId(msg.id, xapp);
      var r := ric.FwdRicRequest(node, msg, fd);
      mapRicId.AddMapRicId(node, r, x);
    }

    method HandleSubscriptionDelete(xapp: nat, id: RicGenId, fd: int)
      requires Valid() && FreshFd(ric.Model(), fd)
      requires XappRicId(id, xapp) in mapRicId.right
      modifies ric
      ensures Valid()
      ensures ric.Model() == DeleteRequested(old(ric.Model()), mapRicId.Model(), E42Delete(xapp, id), fd)
    {
      var t := mapRicId.FindRicReqMapRicId(XappRicId(id, xapp));
      ric.FwdRicSubscriptionDelete(t.node, id.(reqId := t.reqId), fd);
    }

    /** Subscription, delete and control answers and indications. A control answer is
        built from the identifier (and, for a failure, the cause); the others are the
        received message under the xApp's identifier. */
    method HandleFromRic(m: Msg<RicGenId>)
      requires Valid() && !m.Req? && Recognised(mapRicId.left, m.id)
      modifies this
      ensures outbox == old(outbox) + [Translated(mapRicId.left, m)]
      ensures var x, sent := mapRicId.left[m.id.reqId].x, outbox[|outbox| - 1];
              && |outbox| == |old(outbox)| + 1 && sent.xapp == x.xappId && sent.m.id == x.ricId
              && (m.Ind? ==> sent.m.Ind? && sent.m.body == m.body)
              && (m.Ans? ==> sent.m.Ans? && sent.m.kind == m.kind && sent.m.ok == m.ok)
              && (m.Ans? && m.kind == Control && m.ok ==> sent.m.body == 0)
              && (m.Ans? && !(m.kind == Control && m.ok) ==> sent.m.body == m.body)
    {
      var x := mapRicId.FindXappMapRicId(m.id.reqId);
      assert m.id.ranFuncId == x.ricId.ranFuncId && m.id.instId == x.ricId.instId;
      var ans: Msg<RicGenId>;
      match m {
        case Ans(kind, id, ok, body) =>
          if kind == Control && ok {
            ans := Ans(Control, x.ricId, true, 0);
          } else {
            ans := Ans(kind, x.ricId, ok, body);
          }
        case Ind(id, body) =>
          ans := Ind(id.(reqId := x.ricId.reqId), body);
      }
      outbox := outbox + [XWire(x.xappId, ans)];
    }
  }

  // ------------------------------------------------------------ the same, step by step

  function Requested(r: Ric, e: E42Msg, fd: int): Ric
    requires e.E42Request?
  {
    var id := e.id.(reqId := ReqIdOf(r.drawn));
    Sent(Armed(Drawn(r), fd, PendingRic(EventOf(e.kind), id)), Wire(e.node, Req(e.kind, id, e.body)))
  }

  function DeleteRequested(r: Ric, t: Table, e: E42Msg, fd: int): Ric
    requires XappRicId(e.id, e.xapp) in t.right
  {
    var target := t.right[XappRicId(e.id, e.xapp)];
    var id := e.id.(reqId := target.reqId);
    Sent(Armed(r, fd, PendingRic(SubscriptionDeletePending, id)), Wire(target.node, Req(SubscriptionDelete, id, 0)))
  }

  /** Taking a request, drawing its id, arming, sending and recording it, with nothing in
      between, is what HandleRequest does. */
  lemma RequestIsFiveSteps(s: State, i: nat, fd: int)
    requires CanTake(s, i) && s.up[i].E42Request? && FreshFd(s.ric, fd)
    requires ReqIdOf(s.ric.drawn) !in s.table.left
    ensures var e := s.up[i];
            var t := AfterArm(AfterDraw(AfterTake(s, i)), fd);
            CanSend(t) && CanMap(AfterSend(t)) &&
            AfterMap(AfterSend(t)) ==
              s.(up := RemoveAt(s.up, i), ric := Requested(s.ric, e, fd),
                 table := Added(s.table, e.node, ReqIdOf(s.ric.drawn), XappRicId(e.id, e.xapp)))
  {
  }

  lemma DeleteIsFourSteps(s: State, i: nat, fd: int)
    requires CanTake(s, i) && s.up[i].E42Delete? && FreshFd(s.ric, fd)
    requires XappRicId(s.up[i].id, s.up[i].xapp) in s.table.right
    ensures var t := AfterArmDelete(AfterLookup(AfterTake(s, i)), fd);
            CanSendDelete(t) &&
            AfterSendDelete(t) ==
              s.(up := RemoveAt(s.up, i), ric := DeleteRequested(s.ric, s.table, s.up[i], fd))
  {
  }
}
