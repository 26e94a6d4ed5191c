// The near-RT RIC's half of the relay: drawing request ids, arming the timer of a
// request before it is sent, and stopping it when the answer arrives
// (src/ric/near_ric.c, src/ric/msg_handler_ric.c).
module RicCore {
  import opened Ids
  import opened Procedures

  /** A message on the link between the RIC and an E2 node. */
  datatype Wire = Wire(node: NodeId, m: Msg<RicGenId>)

  /** `drawn` counts the ids taken from the counter; `pending` is keyed by timer fd;
      `timers` are the timer fds the RIC holds open; `down` is the output queue. */
  datatype Ric = Ric(drawn: nat, pending: map<int, PendingRic>, timers: set<int>, down: seq<Wire>)

  const FRESH_RIC := Ric(0, map[], {}, [])

  const FIRST_REQ_ID := 1021
  const MODULUS := 0x1_0000

  /** Draws 0..MAX_DRAWS-1 give the ids 1021..65535. */
  const MAX_DRAWS := MODULUS - FIRST_REQ_ID

  /** The id of draw number k: a wide counter cut to 16 bits. */
  function ReqIdOf(k: nat): nat {
    (FIRST_REQ_ID + k) % MODULUS
  }

  /** Which draw, of the first MODULUS, gives an id. */
  function DrawOf(r: nat): nat
    requires r < MODULUS
  {
    if r >= FIRST_REQ_ID then r - FIRST_REQ_ID else r + MAX_DRAWS
  }

  lemma DrawOfReqId(k: nat)
    ensures ReqIdOf(k) < MODULUS && DrawOf(ReqIdOf(k)) == k % MODULUS
    ensures k < MODULUS ==> DrawOf(ReqIdOf(k)) == k
    ensures DrawOf(0) == MAX_DRAWS
  {
  }

  function EventOf(kind: Kind): EventKind {
    match kind
    case Subscription => SubscriptionPending
    case SubscriptionDelete => SubscriptionDeletePending
    case Control => ControlPending
  }

  function Drawn(r: Ric): Ric {
    r.(drawn := r.drawn + 1)
  }

  predicate FreshFd(r: Ric, fd: int) {
    fd > 0 && fd !in r.timers && fd !in r.pending
  }

  function Armed(r: Ric, fd: int, ev: PendingRic): Ric {
    r.(pending := r.pending[fd := ev], timers := r.timers + {fd})
  }

  function Stopped(r: Ric, fd: int): Ric {
    r.(pending := r.pending - {fd}, timers := r.timers - {fd})
  }

  function Sent(r: Ric, p: Wire): Ric {
    r.(down := r.down + [p])
  }

  /** The first n draws give distinct ids exactly while n fits in 16 bits, and non-zero ids
      exactly up to 64515, where they are 1021 and up; the next draw is the reserved id 0. */
  lemma IdAllocationBound(n: nat)
    ensures (forall i, j :: 0 <= i < j < n ==> ReqIdOf(i) != ReqIdOf(j)) <==> n <= 65536
    ensures (forall i :: 0 <= i < n ==> ReqIdOf(i) > 0) <==> n <= 64515
    ensures n <= 64515 ==> forall i :: 0 <= i < n ==> ReqIdOf(i) == 1021 + i
  {
    if n > MODULUS {
      assert ReqIdOf(0) == ReqIdOf(MODULUS);
    }
    if n > MAX_DRAWS {
      assert ReqIdOf(MAX_DRAWS) == 0;
    }
  }

  /** A subscription or control request in the iApp's memory. */
  class RicRequest {
    const kind: Kind
    const body: int
    var id: RicGenId

    constructor (kind: Kind, id: RicGenId, body: int)
      ensures this.kind == kind && this.id == id && this.body == body
    {
      this.kind, this.id, this.body := kind, id, body;
    }
  }

  class NearRic {
    var reqId: int
    var pending: map<int, PendingRic>
    var timers: set<int>
    var down: seq<Wire>

    ghost predicate Valid()
      reads this
    {
      reqId >= FIRST_REQ_ID && pending.Keys == timers && forall fd :: fd in timers ==> fd > 0
    }

    ghost function Model(): Ric
      requires Valid()
      reads this
    {
      Ric(reqId - FIRST_REQ_ID, pending, timers, down)
    }

    constructor ()
      ensures Valid() && Model() == FRESH_RIC
    {
      reqId, pending, timers, down := FIRST_REQ_ID, map[], {}, [];
    }

    /** fwd_ric_subscription_request and fwd_ric_control_request, which differ only in the
        kind: the id is written into the caller's message, the timer is armed, then the
        message leaves. `fd` is the fresh descriptor the kernel hands out. */
    method FwdRicRequest(node: NodeId, msg: RicRequest, fd: int) returns (r: nat)
      requires Valid() && msg.kind != SubscriptionDelete && FreshFd(Model(), fd)
      modifies this, msg
      ensures Valid() && r == ReqIdOf(old(Model()).drawn) && msg.id == old(msg.id).(reqId := r)
      ensures Model() == Sent(Armed(Drawn(old(Model())), fd, PendingRic(EventOf(msg.kind), old(msg.id).(reqId := r))),
                              Wire(node, Req(msg.kind, old(msg.id).(reqId := r), msg.body)))
      ensures fd in pending && fd in timers && pending[fd].id == msg.id && |down| == |old(down)| + 1
      ensures pending[fd].kind == if msg.kind == Control then ControlPending else SubscriptionPending
      ensures down[|down| - 1] == Wire(node, Req(msg.kind, msg.id, msg.body)) && reqId == old(reqId) + 1
    {
      r := reqId % MODULUS;
      reqId := reqId + 1;
      msg.id := msg.id.(reqId := r);
      var ev := PendingRic(EventOf(msg.kind), msg.id);
      timers := timers + {fd};
      pending := pending[fd := ev];
      down := down + [Wire(node, Req(msg.kind, msg.id, msg.body))];
    }

    /** fwd_ric_subscription_request_delete: the id was drawn when the subscription was made. */
    method FwdRicSubscriptionDelete(node: NodeId, id: RicGenId, fd: int)
      requires Valid() && FreshFd(Model(), fd)
      modifies this
      ensures Valid()
      ensures Model() == Sent(Armed(old(Model()), fd, PendingRic(SubscriptionDeletePending, id)),
                              Wire(node, Req(SubscriptionDelete, id, 0)))
    {
      timers := timers + {fd};
      pending := pending[fd := PendingRic(SubscriptionDeletePending, id)];
      down := down + [Wire(node, Req(SubscriptionDelete, id, 0))];
    }

    /** stop_pending_event: takes the entry out by its event and closes its timer. */
    method StopPendingEvent(ev: PendingRic) returns (fd: int)
      requires Valid() && exists f :: f in pending && pending[f] == ev
      modifies this
      ensures Valid() && fd in old(pending) && old(pending)[fd] == ev
      ensures Model() == Stopped(old(Model()), fd)
    {
      fd :| fd in pending && pending[fd] == ev;
      pending := pending - {fd};
      timers := timers - {fd};
    }
  }
}
