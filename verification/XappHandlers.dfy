// The xApp's message handlers, each as one uninterrupted method over the registry, the
// pending timers and the flags, and the steps of module XappCalls each amounts to
// (src/xApp/msg_handler_xapp.c, e42_xapp.c).
module XappHandlers {
  import opened Ids
  import opened Procedures
  import opened XappCalls

  /** What a handler does to the outside world, in order. */
  datatype Action =
    | ArmTimer(fd: int, t: Timer)
    | CloseTimer(fd: int)
    | SendRequest(kind: Kind, id: RicGenId, dest: Option<NodeId>, body: int)
    | Dispatch(callback: int, node: NodeId, body: int)

  // ------------------------------------------------------------ the same, step by step

  /** The event loop may handle the answer, and finds a timer of its kind. */
  predicate CanHandle(s: State, a: Answer) {
    Enabled(s, Poll) && s.answer == Some(a) && a.kind in s.pending.right
  }

  /** The answer is looked up, its timer closed and the caller signalled, with nothing in
      between. */
  function AfterAnswer(s: State, a: Answer): State
    requires CanHandle(s, a)
  {
    Apply(Apply(Apply(s, Poll), Disarm), Signal)
  }

  lemma AnswerIsThreeSteps(s: State, a: Answer)
    requires CanHandle(s, a)
    ensures AfterAnswer(s, a) == s.(answer := None, pending := WithoutKind(s.pending, a.kind), flags := FlagsOf(a))
  {
  }

  /** The caller registered its procedure and may arm a timer on this descriptor. */
  predicate CanIssue(s: State, fd: int) {
    s.caller.Registered? && fd > 0 && fd !in s.pending.left
  }

  /** And this is its request, and these the timers that are armed. */
  predicate Issues(s: State, fd: int, t: Timer, p: Pending) {
    CanIssue(s, fd) && Timer(s.kind, s.id) == t && s.pending == p
  }

  /** A subscription is armed and then sent, the others are sent and then armed. */
  function AfterIssue(s: State, fd: int): State
    requires CanIssue(s, fd)
  {
    if s.kind == Subscription then Apply(Apply(s, Arm(fd)), Send) else Apply(Apply(s, Send), Arm(fd))
  }

  /** Either order changes the shared state the same way; what differs is whether an answer
      can come in between. */
  lemma ArmAndSend(s: State, fd: int)
    requires CanIssue(s, fd)
    ensures AfterIssue(s, fd)
            == s.(pending := WithTimer(s.pending, fd, Timer(s.kind, s.id)), asked := true, caller := Ready)
    ensures s.kind == Subscription <==> !Enabled(s, Send)
    ensures s.kind == Subscription <==> Enabled(s, Arm(fd))
  {
  }

  // ------------------------------------------------------------ the handlers

  class E42Xapp {
    const actProc: ActProc
    const pending: PendingEvents
    const sync: SyncUi
    var log: seq<Action>

    ghost predicate Valid()
      reads this, actProc, pending
    {
      actProc.Valid() && TreesAgree(pending.Model())
    }

    constructor ()
      ensures Valid() && fresh(actProc) && fresh(pending) && fresh(sync)
      ensures actProc.entries == map[] && pending.Model() == NOTHING_PENDING && sync.Model() == CLEARED && log == []
    {
      actProc := new ActProc();
      pending := new PendingEvents();
      sync := new SyncUi();
      log := [];
    }

    /** generate_ric_gen_id: the key becomes the request id, which must fit in 16 bits. */
    method GenerateRicGenId(kind: Kind, ranFunc: nat, node: NodeId, callback: int) returns (id: RicGenId)
      requires Valid() && actProc.next < 0x1_0000
      modifies actProc
      ensures Valid() && id == RicGenId(old(actProc.next), 0, ranFunc) && id.reqId !in old(actProc.entries)
      ensures actProc.next == old(actProc.next) + 1
      ensures actProc.entries
              == old(actProc.entries)[id.reqId := ActProcVal(kind, RicGenId(0, 0, ranFunc), callback, node)]
    {
      var key := actProc.AddActProc(kind, ranFunc, callback, node);
      id := RicGenId(key, 0, ranFunc);
    }

    /** The timer of a subscription request is armed before the request leaves. */
    method SendSubscriptionRequest(id: RicGenId, node: NodeId, body: int, fd: int)
      requires Valid() && fd > 0 && fd !in pending.left && Subscription !in pending.right
      modifies pending, this`log
      ensures Valid() && pending.Model() == WithTimer(old(pending.Model()), fd, Timer(Subscription, id))
      ensures log == old(log) + [ArmTimer(fd, Timer(Subscription, id)), SendRequest(Subscription, id, Some(node), body)]
      ensures forall s :: Issues(s, fd, Timer(Subscription, id), old(pending.Model())) ==>
                AfterIssue(s, fd).pending == pending.Model()
    {
      pending.AddPendingEvent(fd, Timer(Subscription, id));
      log := log + [ArmTimer(fd, Timer(Subscription, id))];
      log := log + [SendRequest(Subscription, id, Some(node), body)];
      forall s | Issues(s, fd, Timer(Subscription, id), old(pending.Model()))
        ensures AfterIssue(s, fd).pending == pending.Model()
      {
        ArmAndSend(s, fd);
      }
    }

    /** The timers of the other two are armed after the request left. A delete request does
        not name the E2 node. */
    method SendOtherRequest(kind: Kind, id: RicGenId, node: NodeId, body: int, fd: int)
      requires Valid() && kind != Subscription && fd > 0 && fd !in pending.left && kind !in pending.right
      modifies pending, this`log
      ensures Valid() && pending.Model() == WithTimer(old(pending.Model()), fd, Timer(kind, id))
      ensures log == old(log) + [SendRequest(kind, id, if kind == Control then Some(node) else None, body),
                                 ArmTimer(fd, Timer(kind, id))]
      ensures forall s :: Issues(s, fd, Timer(kind, id), old(pending.Model())) ==>
                AfterIssue(s, fd).pending == pending.Model()
    {
      log := log + [SendRequest(kind, id, if kind == Control then Some(node) else None, body)];
      pending.AddPendingEvent(fd, Timer(kind, id));
      log := log + [ArmTimer(fd, Timer(kind, id))];
      forall s | Issues(s, fd, Timer(kind, id), old(pending.Model()))
        ensures AfterIssue(s, fd).pending == pending.Model()
      {
        ArmAndSend(s, fd);
      }
    }

    /** Subscription, delete and control answers: the procedure is looked up, the timer of
        its kind closed, the caller signalled. Only a control failure may name a procedure
        that is gone: then no timer is closed, but the caller is signalled all the same. */
    method HandleAnswer(a: Answer)
      requires Valid() && (a.kind != Control ==> a.ok)
      requires a.id.reqId in actProc.entries || !a.ok
      requires a.id.reqId in actProc.entries ==> a.kind in pending.right
      modifies this`log, actProc, pending, sync
      ensures Valid() && sync.Model() == FlagsOf(a)
      ensures actProc.entries.Keys == old(actProc.entries.Keys)
      ensures a.id.reqId in actProc.entries ==>
                && pending.Model() == WithoutKind(old(pending.Model()), a.kind)
                && log == old(log) + [CloseTimer(old(pending.right)[a.kind])]
      ensures a.id.reqId !in actProc.entries ==> pending.Model() == old(pending.Model()) && log == old(log)
      ensures a.id.reqId in actProc.entries ==>
                forall s :: CanHandle(s, a) && s.pending == old(pending.Model()) ==>
                  AfterAnswer(s, a).pending == pending.Model() && AfterAnswer(s, a).flags == sync.Model()
    {
      var v := actProc.FindActProc(a.id.reqId);
      if v.Some? {
        var fd := pending.RmPendingEventEv(Timer(a.kind, v.value.id));
        log := log + [CloseTimer(fd)];
      }
      if a.ok {
        sync.Signal();
      } else {
        sync.SignalError(a.reason);
      }
      forall s | a.id.reqId in actProc.entries && CanHandle(s, a) && s.pending == old(pending.Model())
        ensures AfterAnswer(s, a).pending == pending.Model() && AfterAnswer(s, a).flags == sync.Model()
      {
        AnswerIsThreeSteps(s, a);
      }
    }

    /** An indication runs the callback registered under its request id, with the E2 node
        registered there; one without a procedure is dropped. */
    method HandleIndication(id: RicGenId, body: int)
      requires Valid()
      modifies this`log, actProc
      ensures Valid() && actProc.entries.Keys == old(actProc.entries.Keys)
      ensures log == if id.reqId in old(actProc.entries)
                     then old(log) + [Dispatch(old(actProc.entries)[id.reqId].callback,
                                               old(actProc.entries)[id.reqId].node, body)]
                     else old(log)
    {
      var v := actProc.FindActProc(id.reqId);
      if v.Some? {
        log := log + [Dispatch(v.value.callback, v.value.node, body)];
      }
    }
  }
}
