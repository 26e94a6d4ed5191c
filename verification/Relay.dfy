// The relayed protocol as a state machine. The iApp thread, the RIC's task threads,
// the xApps and the agents interleave freely; one step is one access to shared state.
module Relay {
  import opened Ids
  import opened Procedures
  import opened IdMap
  import opened RicCore

  /** xApp -> iApp. A delete request does not say which E2 node it is for. */
  datatype E42Msg =
    | E42Request(xapp: nat, node: NodeId, kind: Kind, id: RicGenId, body: int)
    | E42Delete(xapp: nat, id: RicGenId)

  /** iApp -> xApp. */
  datatype XWire = XWire(xapp: nat, m: Msg<RicGenId>)

  /** Where the iApp thread stands. From Holding to Sent it owns the write lock of the
      translation table. */
  datatype Pc =
    | Idle
    | Holding(e: E42Msg)
    | GotId(e: E42Msg, r: nat)
    | TimerOn(e: E42Msg, r: nat)
    | Forwarded(e: E42Msg, r: nat)
    | Looking(e: E42Msg)
    | Found(e: E42Msg, t: Target)
    | DeleteTimerOn(e: E42Msg, t: Target)

  /** A timer of an agent. */
  datatype AgentFd = AgentFd(node: NodeId, fd: int)

  /** One invocation of a callback: what the dispatcher was given. */
  datatype Call = Call(xapp: nat, key: nat, callback: int, node: NodeId, body: int)

  /** `made` logs the indications agents sent, `calls` and `dropped` what became of them;
      `answered` the answers agents gave, `settled` those that xApps handled. */
  datatype State = State(
    nextKey: map<nat, nat>, reg: map<Handle, Proc>, hist: map<Handle, Issue>,
    up: seq<E42Msg>, pc: Pc, table: Table, ric: Ric,
    agents: map<AgentFd, RicGenId>, made: seq<Wire>,
    back: seq<Wire>, arrived: seq<Wire>, stopped: seq<Wire>,
    toX: seq<XWire>, calls: seq<Call>, dropped: seq<XWire>,
    answered: seq<Wire>, settled: seq<XWire>)

  datatype Step =
    | XStart(x: nat, issue: Issue) | XDelete(h: Handle) | XForget(h: Handle) | XSettle(i: nat) | XHear(i: nat)
    | ITake(i: nat) | IDraw | IArm(fd: int) | ISend | IMap
    | ILookup | IArmDelete(fd: int) | ISendDelete
    | AServe(i: nat, ok: bool, out: int, fd: int) | AIndicate(f: AgentFd, body: int)
    | TReceive(i: nat) | TStop(i: nat, fd: int) | TPass(i: nat) | TForward(i: nat)

  function RemoveAt<T>(q: seq<T>, i: nat): seq<T>
    requires i < |q|
  {
    q[..i] + q[i + 1..]
  }

  // Each queue holds many FIFO links; only the oldest message of a link can leave it.

  predicate OldestUp(q: seq<E42Msg>, i: nat) {
    i < |q| && forall j :: 0 <= j < i ==> q[j].xapp != q[i].xapp
  }

  predicate OldestWire(q: seq<Wire>, i: nat) {
    i < |q| && forall j :: 0 <= j < i ==> q[j].node != q[i].node
  }

  predicate OldestX(q: seq<XWire>, i: nat) {
    i < |q| && forall j :: 0 <= j < i ==> q[j].xapp != q[i].xapp
  }

  predicate WriteLocked(pc: Pc) {
    pc.Holding? || pc.GotId? || pc.TimerOn? || pc.Forwarded?
  }

  function HandleAtX(p: XWire): Handle {
    Handle(p.xapp, p.m.id.reqId)
  }

  /** The id is in the table, and instance and RAN function are those of the original
      request. */
  predicate Known(left: map<nat, Origin>, id: RicGenId) {
    id.reqId in left && id == left[id.reqId].x.ricId.(reqId := id.reqId)
  }

  /** What the iApp asserts of an answer or indication. */
  predicate Recognised(left: map<nat, Origin>, id: RicGenId) {
    id.reqId > 0 && Known(left, id)
  }

  /** The iApp's translation on the way home: the RIC-wide id becomes the xApp's own. */
  function Translated(left: map<nat, Origin>, m: Msg<RicGenId>): XWire
    requires m.id.reqId in left
  {
    var x := left[m.id.reqId].x;
    XWire(x.xappId, Relabel(Relayed(m), x.ricId))
  }

  // ------------------------------------------------------------------ xApps

  predicate CanStart(s: State, x: nat, issue: Issue) {
    x in s.nextKey && s.nextKey[x] < MODULUS && issue.kind != SubscriptionDelete
  }

  /** generate_ric_gen_id registers the procedure under a fresh key; then the request leaves. */
  function AfterStart(s: State, x: nat, issue: Issue): State
    requires CanStart(s, x, issue)
  {
    var h := Handle(x, s.nextKey[x]);
    s.(nextKey := s.nextKey[x := s.nextKey[x] + 1],
       reg := s.reg[h := Proc(issue, Waiting(issue.kind))],
       hist := s.hist[h := issue],
       up := s.up + [E42Request(x, issue.node, issue.kind, RicGenId(h.key, 0, issue.ranFunc), issue.body)])
  }

  /** rm_report_sm_sync_xapp, on a handle report_sm_sync_xapp returned. */
  predicate CanDelete(s: State, h: Handle) {
    h in s.reg && s.reg[h].phase == Active
  }

  function AfterDelete(s: State, h: Handle): State
    requires CanDelete(s, h)
  {
    s.(reg := s.reg[h := s.reg[h].(phase := Waiting(SubscriptionDelete))],
       up := s.up + [E42Delete(h.xapp, RicGenId(h.key, 0, s.reg[h].issue.ranFunc))])
  }

  /** The calling thread wakes up and removes the finished procedure. */
  predicate CanForget(s: State, h: Handle) {
    h in s.reg && s.reg[h].phase == Answered
  }

  function AfterForget(s: State, h: Handle): State
    requires CanForget(s, h)
  {
    s.(reg := s.reg - {h})
  }

  /** The event loop handles an answer; it asserts that the procedure is registered. */
  predicate CanSettle(s: State, i: nat) {
    OldestX(s.toX, i) && s.toX[i].m.Ans? && HandleAtX(s.toX[i]) in s.reg
  }

  function AfterSettle(s: State, i: nat): State
    requires CanSettle(s, i)
  {
    var h := HandleAtX(s.toX[i]);
    s.(toX := RemoveAt(s.toX, i), reg := s.reg[h := s.reg[h].(phase := Settled(s.toX[i].m.kind))],
       settled := s.settled + [s.toX[i]])
  }

  /** The event loop handles an indication, spurious ones included. */
  predicate CanHear(s: State, i: nat) {
    OldestX(s.toX, i) && s.toX[i].m.Ind?
  }

  function AfterHear(s: State, i: nat): State
    requires CanHear(s, i)
  {
    var h := HandleAtX(s.toX[i]);
    if h in s.reg
    then s.(toX := RemoveAt(s.toX, i),
            calls := s.calls + [Call(h.xapp, h.key, s.reg[h].issue.callback, s.reg[h].issue.node, s.toX[i].m.body)])
    else s.(toX := RemoveAt(s.toX, i), dropped := s.dropped + [s.toX[i]])
  }

  // ------------------------------------------------------------------ iApp thread

  predicate CanTake(s: State, i: nat) {
    s.pc.Idle? && OldestUp(s.up, i)
  }

  /** A request takes the write lock; a delete request only reads the table. */
  function AfterTake(s: State, i: nat): State
    requires CanTake(s, i)
  {
    s.(up := RemoveAt(s.up, i), pc := if s.up[i].E42Request? then Holding(s.up[i]) else Looking(s.up[i]))
  }

  predicate CanDraw(s: State) {
    s.pc.Holding? && s.pc.e.E42Request?
  }

  function AfterDraw(s: State): State
    requires CanDraw(s)
  {
    s.(pc := GotId(s.pc.e, ReqIdOf(s.ric.drawn)), ric := Drawn(s.ric))
  }

  predicate CanArm(s: State, fd: int) {
    s.pc.GotId? && s.pc.e.E42Request? && FreshFd(s.ric, fd)
  }

  function AfterArm(s: State, fd: int): State
    requires CanArm(s, fd)
  {
    s.(pc := TimerOn(s.pc.e, s.pc.r),
       ric := Armed(s.ric, fd, PendingRic(EventOf(s.pc.e.kind), s.pc.e.id.(reqId := s.pc.r))))
  }

  predicate CanSend(s: State) {
    s.pc.TimerOn? && s.pc.e.E42Request?
  }

  function AfterSend(s: State): State
    requires CanSend(s)
  {
    s.(pc := Forwarded(s.pc.e, s.pc.r),
       ric := Sent(s.ric, Wire(s.pc.e.node, Req(s.pc.e.kind, s.pc.e.id.(reqId := s.pc.r), s.pc.e.body))))
  }

  /** add_map_ric_id, which asserts the id is new, and the end of the critical section. */
  predicate CanMap(s: State) {
    s.pc.Forwarded? && s.pc.e.E42Request? && s.pc.r !in s.table.left
  }

  function AfterMap(s: State): State
    requires CanMap(s)
  {
    s.(pc := Idle, table := Added(s.table, s.pc.e.node, s.pc.r, XappRicId(s.pc.e.id, s.pc.e.xapp)))
  }

  /** find_ric_req_map_ric_id, which asserts the xApp's id is in the table. */
  predicate CanLookup(s: State) {
    s.pc.Looking? && XappRicId(s.pc.e.id, s.pc.e.xapp) in s.table.right
  }

  function AfterLookup(s: State): State
    requires CanLookup(s)
  {
    s.(pc := Found(s.pc.e, s.table.right[XappRicId(s.pc.e.id, s.pc.e.xapp)]))
  }

  predicate CanArmDelete(s: State, fd: int) {
    s.pc.Found? && FreshFd(s.ric, fd)
  }

  function AfterArmDelete(s: State, fd: int): State
    requires CanArmDelete(s, fd)
  {
    s.(pc := DeleteTimerOn(s.pc.e, s.pc.t),
       ric := Armed(s.ric, fd, PendingRic(SubscriptionDeletePending, s.pc.e.id.(reqId := s.pc.t.reqId))))
  }

  predicate CanSendDelete(s: State) {
    s.pc.DeleteTimerOn?
  }

  function AfterSendDelete(s: State): State
    requires CanSendDelete(s)
  {
    s.(pc := Idle,
       ric := Sent(s.ric, Wire(s.pc.t.node, Req(SubscriptionDelete, s.pc.e.id.(reqId := s.pc.t.reqId), 0))))
  }

  // ------------------------------------------------------------------ agents

  /** A subscription needs a fresh timer; a delete asserts that the agent finds one. */
  predicate CanServe(s: State, i: nat, ok: bool, out: int, fd: int) {
    && OldestWire(s.ric.down, i)
    && PossibleAnswer(s.ric.down[i].m, ok, out)
    && (match s.ric.down[i].m.kind
        case Subscription => fd > 0 && AgentFd(s.ric.down[i].node, fd) !in s.agents
        case SubscriptionDelete =>
          var f := AgentFd(s.ric.down[i].node, fd);
          f in s.agents && s.agents[f] == s.ric.down[i].m.id
        case Control => true)
  }

  function ServedAgents(agents: map<AgentFd, RicGenId>, p: Wire, fd: int): map<AgentFd, RicGenId>
    requires p.m.Req?
  {
    match p.m.kind
    case Subscription => agents[AgentFd(p.node, fd) := p.m.id]
    case SubscriptionDelete => agents - {AgentFd(p.node, fd)}
    case Control => agents
  }

  function AnswerOf(p: Wire, ok: bool, out: int): Wire
    requires p.m.Req?
  {
    Wire(p.node, Ans(p.m.kind, p.m.id, ok, out))
  }

  function AfterServe(s: State, i: nat, ok: bool, out: int, fd: int): State
    requires CanServe(s, i, ok, out, fd)
  {
    s.(ric := s.ric.(down := RemoveAt(s.ric.down, i)),
       agents := ServedAgents(s.agents, s.ric.down[i], fd),
       back := s.back + [AnswerOf(s.ric.down[i], ok, out)],
       answered := s.answered + [AnswerOf(s.ric.down[i], ok, out)])
  }

  predicate CanIndicate(s: State, f: AgentFd) {
    f in s.agents
  }

  function AfterIndicate(s: State, f: AgentFd, body: int): State
    requires CanIndicate(s, f)
  {
    var p := Wire(f.node, Ind(s.agents[f], body));
    s.(back := s.back + [p], made := s.made + [p])
  }

  // ------------------------------------------------------------------ RIC tasks

  predicate CanReceive(s: State, i: nat) {
    OldestWire(s.back, i)
  }

  function AfterReceive(s: State, i: nat): State
    requires CanReceive(s, i)
  {
    s.(back := RemoveAt(s.back, i), arrived := s.arrived + [s.back[i]])
  }

  /** stop_pending_event of an answer; the tree asserts that the event is there. */
  predicate CanStop(s: State, i: nat, fd: int) {
    && i < |s.arrived| && s.arrived[i].m.Ans?
    && fd in s.ric.pending
    && s.ric.pending[fd] == PendingRic(EventOf(s.arrived[i].m.kind), s.arrived[i].m.id)
  }

  function AfterStop(s: State, i: nat, fd: int): State
    requires CanStop(s, i, fd)
  {
    s.(arrived := RemoveAt(s.arrived, i), stopped := s.stopped + [s.arrived[i]], ric := Stopped(s.ric, fd))
  }

  /** Indications have no timer and go straight to the iApp. */
  predicate CanPass(s: State, i: nat) {
    i < |s.arrived| && s.arrived[i].m.Ind?
  }

  function AfterPass(s: State, i: nat): State
    requires CanPass(s, i)
  {
    s.(arrived := RemoveAt(s.arrived, i), stopped := s.stopped + [s.arrived[i]])
  }

  /** find_xapp_map_ric_id needs the read lock, so no writer may hold the table. */
  predicate CanForward(s: State, i: nat) {
    i < |s.stopped| && !WriteLocked(s.pc) && Recognised(s.table.left, s.stopped[i].m.id)
  }

  function AfterForward(s: State, i: nat): State
    requires CanForward(s, i)
  {
    s.(stopped := RemoveAt(s.stopped, i), toX := s.toX + [Translated(s.table.left, s.stopped[i].m)])
  }

  // ------------------------------------------------------------------ runs

  predicate Enabled(s: State, st: Step) {
    match st
    case XStart(x, issue) => CanStart(s, x, issue)
    case XDelete(h) => CanDelete(s, h)
    case XForget(h) => CanForget(s, h)
    case XSettle(i) => CanSettle(s, i)
    case XHear(i) => CanHear(s, i)
    case ITake(i) => CanTake(s, i)
    case IDraw => CanDraw(s)
    case IArm(fd) => CanArm(s, fd)
    case ISend => CanSend(s)
    case IMap => CanMap(s)
    case ILookup => CanLookup(s)
    case IArmDelete(fd) => CanArmDelete(s, fd)
    case ISendDelete => CanSendDelete(s)
    case AServe(i, ok, out, fd) => CanServe(s, i, ok, out, fd)
    case AIndicate(f, _) => CanIndicate(s, f)
    case TReceive(i) => CanReceive(s, i)
    case TStop(i, fd) => CanStop(s, i, fd)
    case TPass(i) => CanPass(s, i)
    case TForward(i) => CanForward(s, i)
  }

  function Apply(s: State, st: Step): State
    requires Enabled(s, st)
  {
    match st
    case XStart(x, issue) => AfterStart(s, x, issue)
    case XDelete(h) => AfterDelete(s, h)
    case XForget(h) => AfterForget(s, h)
    case XSettle(i) => AfterSettle(s, i)
    case XHear(i) => AfterHear(s, i)
    case ITake(i) => AfterTake(s, i)
    case IDraw => AfterDraw(s)
    case IArm(fd) => AfterArm(s, fd)
    case ISend => AfterSend(s)
    case IMap => AfterMap(s)
    case ILookup => AfterLookup(s)
    case IArmDelete(fd) => AfterArmDelete(s, fd)
    case ISendDelete => AfterSendDelete(s)
    case AServe(i, ok, out, fd) => AfterServe(s, i, ok, out, fd)
    case AIndicate(f, body) => AfterIndicate(s, f, body)
    case TReceive(i) => AfterReceive(s, i)
    case TStop(i, fd) => AfterStop(s, i, fd)
    case TPass(i) => AfterPass(s, i)
    case TForward(i) => AfterForward(s, i)
  }

  /** xApps are set up, agents are connected, nothing was asked yet. */
  ghost predicate Initial(s: State) {
    && (forall x :: x in s.nextKey ==> s.nextKey[x] == 1)
    && s.reg == map[] && s.hist == map[]
    && s.pc == Idle && s.table == EMPTY_TABLE && s.ric == FRESH_RIC
    && s.agents == map[]
    && s.up == [] && s.made == [] && s.back == [] && s.arrived == [] && s.stopped == []
    && s.toX == [] && s.calls == [] && s.dropped == [] && s.answered == [] && s.settled == []
  }

  ghost predicate Follows(run: seq<State>, steps: seq<Step>, i: nat)
    requires i < |steps| < |run|
  {
    Enabled(run[i], steps[i]) && run[i + 1] == Apply(run[i], steps[i])
  }

  /** A run: n+1 states joined by n steps. */
  ghost predicate IsRun(run: seq<State>, steps: seq<Step>) {
    |run| == |steps| + 1 && Initial(run[0]) && forall i: nat :: i < |steps| ==> Follows(run, steps, i)
  }
}
