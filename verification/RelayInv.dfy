// What every reachable state of the relay satisfies, and how it represents a state of
// the direct channels of module Direct.
module RelayInv {
  import opened Ids
  import opened Procedures
  import opened IdMap
  import opened RicCore
  import opened Relay
  import Direct

  type Packet = Direct.Packet

  function XOf(e: E42Msg): XappRicId {
    XappRicId(e.id, e.xapp)
  }

  /** The table as it will be once the request in the iApp's hands is recorded. */
  function NextTable(s: State): Table {
    if (s.pc.GotId? || s.pc.TimerOn? || s.pc.Forwarded?) && s.pc.e.E42Request?
    then Added(s.table, s.pc.e.node, s.pc.r, XOf(s.pc.e))
    else s.table
  }

  // ------------------------------------------------------- messages without relay ids

  function UpPacket(e: E42Msg): Packet {
    match e
    case E42Request(x, _, kind, id, body) => Req(kind, Handle(x, id.reqId), body)
    case E42Delete(x, id) => Req(SubscriptionDelete, Handle(x, id.reqId), 0)
  }

  function WirePacket(left: map<nat, Origin>, w: Wire): Packet {
    Relabel(Relayed(w.m), if w.m.id.reqId in left then HandleOf(left[w.m.id.reqId].x) else Handle(0, 0))
  }

  function XPacket(p: XWire): Packet {
    Relabel(Relayed(p.m), HandleAtX(p))
  }

  function CallPacket(c: Call): Packet {
    Ind(Handle(c.xapp, c.key), c.body)
  }

  function UpPackets(q: seq<E42Msg>): (r: seq<Packet>)
    ensures |r| == |q| && forall i :: 0 <= i < |q| ==> r[i] == UpPacket(q[i])
  {
    seq(|q|, i requires 0 <= i < |q| => UpPacket(q[i]))
  }

  function WirePackets(left: map<nat, Origin>, q: seq<Wire>): (r: seq<Packet>)
    ensures |r| == |q| && forall i :: 0 <= i < |q| ==> r[i] == WirePacket(left, q[i])
  {
    seq(|q|, i requires 0 <= i < |q| => WirePacket(left, q[i]))
  }

  function XPackets(q: seq<XWire>): (r: seq<Packet>)
    ensures |r| == |q| && forall i :: 0 <= i < |q| ==> r[i] == XPacket(q[i])
  {
    seq(|q|, i requires 0 <= i < |q| => XPacket(q[i]))
  }

  function CallPackets(q: seq<Call>): (r: seq<Packet>)
    ensures |r| == |q| && forall i :: 0 <= i < |q| ==> r[i] == CallPacket(q[i])
  {
    seq(|q|, i requires 0 <= i < |q| => CallPacket(q[i]))
  }

  /** The message the iApp holds and has neither sent on nor queued. */
  function PcBag(pc: Pc): multiset<Packet> {
    if pc.Idle? || pc.Forwarded? then multiset{} else multiset{UpPacket(pc.e)}
  }

  function Flight(left: map<nat, Origin>, up: seq<E42Msg>, held: multiset<Packet>, down: seq<Wire>,
                  back: seq<Wire>, arrived: seq<Wire>, stopped: seq<Wire>, toX: seq<XWire>): multiset<Packet>
  {
    multiset(UpPackets(up)) + held + multiset(WirePackets(left, down)) + multiset(WirePackets(left, back))
    + multiset(WirePackets(left, arrived)) + multiset(WirePackets(left, stopped)) + multiset(XPackets(toX))
  }

  /** Everything in flight between xApps and agents, wherever it is queued. */
  function InFlight(s: State): multiset<Packet> {
    Flight(NextTable(s).left, s.up, PcBag(s.pc), s.ric.down, s.back, s.arrived, s.stopped, s.toX)
  }

  function AgentHandles(left: map<nat, Origin>, agents: map<AgentFd, RicGenId>): set<Handle> {
    set f | f in agents && agents[f].reqId in left :: HandleOf(left[agents[f].reqId].x)
  }

  // ------------------------------------------------------- representation relation

  function Expected(d: Direct.State, m: Packet): nat {
    if m.Ind? then d.inds[m] else if m.id in d.channel && d.channel[m.id] == m then 1 else 0
  }

  ghost predicate Carries(bag: multiset<Packet>, d: Direct.State) {
    forall m :: bag[m] == Expected(d, m)
  }

  /** The registries, the timers of the agents and the histories agree. */
  ghost predicate Mirrors(s: State, d: Direct.State) {
    var left := NextTable(s).left;
    && d.reg == s.reg && d.hist == s.hist
    && d.timers == AgentHandles(left, s.agents)
    && d.made == multiset(WirePackets(left, s.made))
    && d.heard == multiset(CallPackets(s.calls))
    && d.dropped == multiset(XPackets(s.dropped))
  }

  ghost predicate Represents(s: State, d: Direct.State) {
    Carries(InFlight(s), d) && Mirrors(s, d)
  }

  // ------------------------------------------------------- invariant

  ghost predicate OriginOk(hist: map<Handle, Issue>, o: Origin) {
    && HandleOf(o.x) in hist
    && o.x == IdFor(HandleOf(o.x), hist[HandleOf(o.x)])
    && o.node == hist[HandleOf(o.x)].node
  }

  ghost predicate TableOk(t: Table, hist: map<Handle, Issue>, drawn: nat) {
    && Inverse(t)
    && forall r :: r in t.left ==> r < MODULUS && DrawOf(r) < drawn && OriginOk(hist, t.left[r])
  }

  /** The message names a request of the table, and travels to or from its E2 node. */
  predicate Matches(left: map<nat, Origin>, node: NodeId, id: RicGenId) {
    Known(left, id) && left[id.reqId].node == node
  }

  ghost predicate DownOk(left: map<nat, Origin>, q: seq<Wire>) {
    forall i :: 0 <= i < |q| ==> q[i].m.Req? && Matches(left, q[i].node, q[i].m.id)
  }

  ghost predicate HomeOk(left: map<nat, Origin>, q: seq<Wire>) {
    forall i :: 0 <= i < |q| ==> !q[i].m.Req? && Matches(left, q[i].node, q[i].m.id)
  }

  ghost predicate MadeOk(left: map<nat, Origin>, q: seq<Wire>) {
    forall i :: 0 <= i < |q| ==> q[i].m.Ind? && Matches(left, q[i].node, q[i].m.id)
  }

  ghost predicate AgentsOk(left: map<nat, Origin>, agents: map<AgentFd, RicGenId>) {
    && (forall f :: f in agents ==> f.fd > 0 && Matches(left, f.node, agents[f]))
    && (forall f, g :: f in agents && g in agents && agents[f] == agents[g] ==> f == g)
  }

  ghost predicate E42Ok(hist: map<Handle, Issue>, e: E42Msg) {
    var h := Handle(e.xapp, e.id.reqId);
    && h in hist
    && XOf(e) == IdFor(h, hist[h])
    && (e.E42Request? ==> e == E42Request(h.xapp, hist[h].node, hist[h].kind, e.id, hist[h].body))
  }

  /** A request is not in the table yet; the request a delete is about is. */
  ghost predicate UpOk(hist: map<Handle, Issue>, right: map<XappRicId, Target>, up: seq<E42Msg>) {
    forall i :: 0 <= i < |up| ==> E42Ok(hist, up[i]) && (up[i].E42Delete? <==> XOf(up[i]) in right)
  }

  ghost predicate PcOk(hist: map<Handle, Issue>, t: Table, drawn: nat, pc: Pc) {
    match pc
    case Idle => true
    case Holding(e) => E42Ok(hist, e) && e.E42Request? && XOf(e) !in t.right
    case Looking(e) => E42Ok(hist, e) && e.E42Delete? && XOf(e) in t.right
    case Found(e, target) => E42Ok(hist, e) && e.E42Delete? && XOf(e) in t.right && t.right[XOf(e)] == target
    case DeleteTimerOn(e, target) => E42Ok(hist, e) && e.E42Delete? && XOf(e) in t.right && t.right[XOf(e)] == target
    case _ =>
      && E42Ok(hist, pc.e) && pc.e.E42Request? && XOf(pc.e) !in t.right
      && drawn > 0 && pc.r == ReqIdOf(drawn - 1) && pc.r !in t.left
  }

  ghost predicate ToXOk(right: map<XappRicId, Target>, q: seq<XWire>) {
    forall i :: 0 <= i < |q| ==> !q[i].m.Req? && XappRicId(q[i].m.id, q[i].xapp) in right
  }

  /** Once a procedure got its first answer, its id is in the table. */
  ghost predicate RegMapped(hist: map<Handle, Issue>, reg: map<Handle, Proc>, right: map<XappRicId, Target>) {
    forall h :: h in reg ==>
      h in hist && (reg[h].phase == Waiting(hist[h].kind) || IdFor(h, hist[h]) in right)
  }

  ghost predicate KeysOk(nextKey: map<nat, nat>, hist: map<Handle, Issue>) {
    forall h :: h in hist ==> h.xapp in nextKey && h.key < nextKey[h.xapp]
  }

  ghost predicate CallsOk(hist: map<Handle, Issue>, calls: seq<Call>) {
    forall i :: 0 <= i < |calls| ==>
      var h := Handle(calls[i].xapp, calls[i].key);
      h in hist && calls[i].callback == hist[h].callback && calls[i].node == hist[h].node
  }

  ghost predicate DroppedOk(dropped: seq<XWire>) {
    forall i :: 0 <= i < |dropped| ==> dropped[i].m.Ind?
  }

  ghost predicate LinksOk(s: State) {
    var left := NextTable(s).left;
    && DownOk(left, s.ric.down)
    && HomeOk(left, s.back) && HomeOk(left, s.arrived) && HomeOk(left, s.stopped)
    && MadeOk(left, s.made)
    && AgentsOk(left, s.agents)
  }

  ghost predicate EndsOk(s: State) {
    && UpOk(s.hist, NextTable(s).right, s.up)
    && ToXOk(NextTable(s).right, s.toX)
    && RegMapped(s.hist, s.reg, NextTable(s).right)
    && KeysOk(s.nextKey, s.hist)
    && CallsOk(s.hist, s.calls)
    && DroppedOk(s.dropped)
  }

  // ------------------------------------------------------- pending timers

  /** The pending event a request or its answer belongs to; indications have none. */
  function EventKey(m: Msg<RicGenId>): Option<PendingRic> {
    if m.Ind? then None else Some(PendingRic(EventOf(m.kind), m.id))
  }

  function EventKeys(q: seq<Wire>): (r: seq<Option<PendingRic>>)
    ensures |r| == |q| && forall i :: 0 <= i < |q| ==> r[i] == EventKey(q[i].m)
  {
    seq(|q|, i requires 0 <= i < |q| => EventKey(q[i].m))
  }

  function PcEvent(pc: Pc): multiset<Option<PendingRic>> {
    match pc
    case TimerOn(e, r) =>
      if e.E42Request? then multiset{Some(PendingRic(EventOf(e.kind), e.id.(reqId := r)))} else multiset{}
    case DeleteTimerOn(e, t) => multiset{Some(PendingRic(SubscriptionDeletePending, e.id.(reqId := t.reqId)))}
    case _ => multiset{}
  }

  /** Requests issued minus answers handled: armed but unsent, on the way to the agent,
      on the way back, or waiting for a task. */
  function Outstanding(s: State): multiset<Option<PendingRic>> {
    PcEvent(s.pc) + multiset(EventKeys(s.ric.down)) + multiset(EventKeys(s.back)) + multiset(EventKeys(s.arrived))
  }

  /** The pending map is exactly the set of outstanding requests, each once and with
      its own open timer. */
  ghost predicate PendingOk(ric: Ric, out: multiset<Option<PendingRic>>) {
    && ric.pending.Keys == ric.timers
    && (forall fd :: fd in ric.pending ==> fd > 0 && out[Some(ric.pending[fd])] == 1)
    && (forall f, g :: f in ric.pending && g in ric.pending && ric.pending[f] == ric.pending[g] ==> f == g)
    && (forall k :: Some(k) in out ==> exists fd :: fd in ric.pending && ric.pending[fd] == k)
  }

  ghost predicate Inv(s: State) {
    && TableOk(s.table, s.hist, s.ric.drawn)
    && PcOk(s.hist, s.table, s.ric.drawn, s.pc)
    && LinksOk(s)
    && EndsOk(s)
    && PendingOk(s.ric, Outstanding(s))
  }
}
