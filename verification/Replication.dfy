// The copies of the node registry that xApps keep: E42 setup, the update broadcasts, and
// what an xApp does with either (src/ric/iApp/msg_handler_iapp.c, e42_iapp.c,
// map_xapps_sockaddr.c, src/ric/msg_handler_ric.c, not_handler_ric.c,
// src/xApp/msg_handler_xapp.c, e42_xapp.c).
module Replication {
  import opened Ids
  import opened RegE2Nodes

  type Registry = map<NodeId, seq<RanFunction>>

  const NO_NODES: Registry := map[]

  const FIRST_XAPP_ID := 7
  const MAX_XAPPS := 65529

  /** A registry snapshot on its way to an xApp; `version` says which one it is. */
  datatype Msg = SetupResponse(version: nat, nodes: Registry) | Update(version: nat, nodes: Registry)

  /** An xApp: everything ever sent to it, how many messages it handled, and its registry. */
  datatype XApp = XApp(sent: seq<Msg>, handled: nat, connected: bool, nodes: Registry)

  const NEW_XAPP := XApp([], 0, false, NO_NODES)

  /** The iApp thread inside the handling of an E42 setup: it handed out an id and took the
      snapshot, or also registered the xApp's address, and will send the snapshot last. */
  datatype Pc =
    | Listening
    | Snapped(id: nat, peer: nat, version: nat, nodes: Registry)
    | SockKnown(id: nat, peer: nat, version: nat, nodes: Registry)

  /** What a thread that changes the registry is at: a shutdown whose node it has erased from
      conn_e2_nodes and not yet from the registry, or a broadcast that is still to begin, has
      counted the xApps, or is sending the snapshot it took to the ids from `next` on. */
  datatype Broadcast =
    | Quiet
    | Leaving(node: NodeId)
    | Due
    | Counted(num: nat)
    | Sending(num: nat, version: nat, nodes: Registry, next: nat)

  /** Who broadcasts. A setup task appends its node to conn_e2_nodes and broadcasts under the
      mutex of that list; the event loop, which handles shutdowns one after the other, holds
      the mutex only while it erases the node. */
  datatype Who = Setup | Shutdown

  /** `log` lists every value the registry ever had; the last is the current one. `due` are
      the nodes whose setup tasks added them to the registry and wait for the mutex, `conn`
      those in conn_e2_nodes. `socks` maps the registered xApp ids to the xApps, which may
      have several. `asking` are the E42 setup requests on their way. The rest is history:
      `answered` counts the responses sent to each xApp; `disturbed` are the xApps during
      whose E42 setup the registry was being changed or broadcast; `crossed` says that a
      snapshot was taken for one broadcast while the other was sending. */
  datatype State = State(
    log: seq<Registry>, nextId: nat, pc: Pc, socks: map<nat, nat>, xapps: map<nat, XApp>, asking: multiset<nat>,
    due: set<NodeId>, conn: set<NodeId>, setup: Broadcast, shutdown: Broadcast,
    answered: multiset<nat>, disturbed: set<nat>, crossed: bool)

  datatype Step =
    | Ask(x: nat) | TakeSnapshot(x: nat) | RegisterSock | SendResponse
    | NodeUp(n: NodeId, funcs: seq<RanFunction>) | Append(n: NodeId) | Erase(n: NodeId) | NodeDown(n: NodeId)
    | Count(w: Who) | Snapshot(w: Who) | SendNext(w: Who) | End(w: Who)
    | Receive(x: nat)

  function Current(s: State): Registry
    requires s.log != []
  {
    s.log[|s.log| - 1]
  }

  function Running(s: State, w: Who): Broadcast {
    if w.Setup? then s.setup else s.shutdown
  }

  function Other(w: Who): Who {
    if w.Setup? then Shutdown else Setup
  }

  function WithBroadcast(s: State, w: Who, b: Broadcast): State {
    if w.Setup? then s.(setup := b) else s.(shutdown := b)
  }

  /** The registry was changed and not everybody told. */
  predicate Busy(s: State) {
    s.due != {} || Broadcasting(s.setup) || Broadcasting(s.shutdown)
  }

  predicate Broadcasting(b: Broadcast) {
    b.Due? || b.Counted? || b.Sending?
  }

  function Posted(xapps: map<nat, XApp>, x: nat, m: Msg): map<nat, XApp>
    requires x in xapps
  {
    xapps[x := xapps[x].(sent := xapps[x].sent + [m])]
  }

  /** e2ap_handle_e42_setup_response_xapp asserts that the xApp is not connected, and each
      add_reg_e2_node that the node is new; an update replaces the whole registry. */
  predicate AssertHolds(x: XApp, m: Msg) {
    m.SetupResponse? ==> !x.connected && forall n :: n in m.nodes ==> n !in x.nodes
  }

  function Handled(x: XApp, m: Msg): XApp {
    match m
    case SetupResponse(_, nodes) => x.(handled := x.handled + 1, connected := true, nodes := x.nodes + nodes)
    case Update(_, nodes) => x.(handled := x.handled + 1, nodes := nodes)
  }

  predicate HasMessage(x: XApp) {
    x.handled < |x.sent|
  }

  /** What update_e2_node looks up for the next id of a broadcast. */
  predicate LookupFinds(s: State, w: Who)
    requires Running(s, w).Sending?
  {
    Running(s, w).next in s.socks
  }

  /** An xApp asks again on every timeout until it is connected. Adding a node asserts that
      it is new, erasing and removing it that it is there; a setup task takes the mutex
      when it appends its node, and keeps it to the end of its broadcast. */
  predicate Enabled(s: State, st: Step) {
    && s.log != []
    && match st
       case Ask(x) => x in s.xapps ==> !s.xapps[x].connected
       case TakeSnapshot(x) => s.pc.Listening? && x in s.asking && s.nextId < FIRST_XAPP_ID + MAX_XAPPS
       case RegisterSock => s.pc.Snapped?
       case SendResponse => s.pc.SockKnown? && s.pc.peer in s.xapps
       case NodeUp(n, _) => n !in Current(s)
       case Append(n) => n in s.due && s.setup.Quiet?
       case Erase(n) => n in s.conn && s.setup.Quiet? && s.shutdown.Quiet?
       case NodeDown(n) => s.shutdown == Leaving(n) && n in Current(s)
       case Count(w) => Running(s, w).Due?
       case Snapshot(w) => Running(s, w).Counted? && Running(s, w).num > 0
       case SendNext(w) =>
         && Running(s, w).Sending? && Running(s, w).next < FIRST_XAPP_ID + Running(s, w).num
         && LookupFinds(s, w) && s.socks[Running(s, w).next] in s.xapps
       case End(w) =>
         var b := Running(s, w);
         (b.Counted? && b.num == 0) || (b.Sending? && b.next == FIRST_XAPP_ID + b.num)
       case Receive(x) => x in s.xapps && HasMessage(s.xapps[x]) && AssertHolds(s.xapps[x], NextMsg(s.xapps[x]))
  }

  function NextMsg(x: XApp): Msg
    requires HasMessage(x)
  {
    x.sent[x.handled]
  }

  function Changed(s: State, reg: Registry): State {
    s.(log := s.log + [reg], disturbed := if s.pc.Listening? then s.disturbed else s.disturbed + {s.pc.peer})
  }

  function Apply(s: State, st: Step): State
    requires Enabled(s, st)
  {
    match st
    case Ask(x) =>
      s.(asking := s.asking + multiset{x}, xapps := if x in s.xapps then s.xapps else s.xapps[x := NEW_XAPP])
    case TakeSnapshot(x) =>
      s.(asking := s.asking - multiset{x}, nextId := s.nextId + 1,
         pc := Snapped(s.nextId, x, |s.log| - 1, Current(s)),
         disturbed := if Busy(s) then s.disturbed + {x} else s.disturbed)
    case RegisterSock =>
      s.(pc := SockKnown(s.pc.id, s.pc.peer, s.pc.version, s.pc.nodes), socks := s.socks[s.pc.id := s.pc.peer])
    case SendResponse =>
      s.(pc := Listening, answered := s.answered + multiset{s.pc.peer},
         xapps := Posted(s.xapps, s.pc.peer, SetupResponse(s.pc.version, s.pc.nodes)))
    case NodeUp(n, funcs) => Changed(s, Current(s)[n := funcs]).(due := s.due + {n})
    case Append(n) => s.(due := s.due - {n}, conn := s.conn + {n}, setup := Due)
    case Erase(n) => s.(conn := s.conn - {n}, shutdown := Leaving(n))
    case NodeDown(n) => Changed(s, Current(s) - {n}).(shutdown := Due)
    case Count(w) => WithBroadcast(s, w, Counted(|s.socks|))
    case Snapshot(w) =>
      WithBroadcast(s.(crossed := s.crossed || Running(s, Other(w)).Sending?), w,
                    Sending(Running(s, w).num, |s.log| - 1, Current(s), FIRST_XAPP_ID))
    case SendNext(w) =>
      var b := Running(s, w);
      WithBroadcast(s.(xapps := Posted(s.xapps, s.socks[b.next], Update(b.version, b.nodes))), w,
                    b.(next := b.next + 1))
    case End(w) => WithBroadcast(s, w, Quiet)
    case Receive(x) => s.(xapps := s.xapps[x := Handled(s.xapps[x], NextMsg(s.xapps[x]))])
  }

  const START := State([NO_NODES], FIRST_XAPP_ID, Listening, map[], map[], multiset{}, {}, {}, Quiet, Quiet,
                       multiset{}, {}, false)

  ghost predicate Follows(run: seq<State>, steps: seq<Step>, i: nat)
    requires i < |steps| < |run|
  {
    Enabled(run[i], steps[i]) && run[i + 1] == Apply(run[i], steps[i])
  }

  ghost predicate IsRun(run: seq<State>, steps: seq<Step>) {
    |run| == |steps| + 1 && run[0] == START && forall i: nat :: i < |steps| ==> Follows(run, steps, i)
  }

  // ------------------------------------------------------------ lookups

  /** How many ids have a registered address. */
  function Joined(s: State): int {
    s.nextId - FIRST_XAPP_ID - (if s.pc.Snapped? then 1 else 0)
  }

  /** The registered ids are 7, 8, ... without a gap. */
  ghost predicate Consecutive(socks: set<nat>, n: int) {
    forall id :: id in socks <==> FIRST_XAPP_ID <= id < FIRST_XAPP_ID + n
  }

  lemma {:induction false} ConsecutiveCount(socks: set<nat>, n: nat)
    requires Consecutive(socks, n)
    ensures |socks| == n
    decreases n
  {
    if n == 0 {
      assert socks == {};
    } else {
      var last := FIRST_XAPP_ID + n - 1;
      ConsecutiveCount(socks - {last}, n - 1);
    }
  }

  /** A broadcast counted no more than the ids that are registered by now. */
  ghost predicate CountOk(b: Broadcast, joined: int) {
    match b
    case Counted(num) => num <= joined
    case Sending(num, _, _, next) => 0 < num <= joined && FIRST_XAPP_ID <= next <= FIRST_XAPP_ID + num
    case _ => true
  }

  ghost predicate IdsOk(s: State) {
    && s.log != []
    && FIRST_XAPP_ID <= s.nextId <= FIRST_XAPP_ID + MAX_XAPPS
    && Joined(s) >= 0 && Consecutive(s.socks.Keys, Joined(s))
    && (forall id :: id in s.socks ==> s.socks[id] in s.xapps)
    && (!s.pc.Listening? ==> s.pc.id == s.nextId - 1 && s.pc.peer in s.xapps)
    && (s.pc.SockKnown? ==> s.pc.id in s.socks && s.socks[s.pc.id] == s.pc.peer)
    && (forall x :: x in s.asking ==> x in s.xapps)
    && CountOk(s.setup, Joined(s)) && CountOk(s.shutdown, Joined(s))
  }

  lemma CountKeepsIds(s: State, w: Who)
    requires IdsOk(s) && Enabled(s, Count(w))
    ensures IdsOk(Apply(s, Count(w)))
  {
    ConsecutiveCount(s.socks.Keys, Joined(s));
    assert |s.socks| == |s.socks.Keys|;
  }

  lemma SetupKeepsIds(s: State, st: Step)
    requires IdsOk(s) && Enabled(s, st) && (st.Ask? || st.TakeSnapshot? || st.RegisterSock? || st.SendResponse?)
    ensures IdsOk(Apply(s, st))
  {
  }

  lemma SnapshotKeepsIds(s: State, w: Who)
    requires IdsOk(s) && Enabled(s, Snapshot(w))
    ensures IdsOk(Apply(s, Snapshot(w)))
  {
  }

  lemma SendKeepsIds(s: State, w: Who)
    requires IdsOk(s) && Enabled(s, SendNext(w))
    ensures IdsOk(Apply(s, SendNext(w)))
  {
    assert Apply(s, SendNext(w)).xapps.Keys == s.xapps.Keys;
  }

  lemma EndKeepsIds(s: State, w: Who)
    requires IdsOk(s) && Enabled(s, End(w))
    ensures IdsOk(Apply(s, End(w)))
  {
  }

  lemma ChangeKeepsIds(s: State, st: Step)
    requires IdsOk(s) && Enabled(s, st)
    requires st.NodeUp? || st.Append? || st.Erase? || st.NodeDown? || st.Receive?
    ensures IdsOk(Apply(s, st))
  {
  }

  lemma StepKeepsIds(s: State, st: Step)
    requires IdsOk(s) && Enabled(s, st)
    ensures IdsOk(Apply(s, st))
  {
    match st {
      case Ask(_) => SetupKeepsIds(s, st);
      case TakeSnapshot(_) => SetupKeepsIds(s, st);
      case RegisterSock => SetupKeepsIds(s, st);
      case SendResponse => SetupKeepsIds(s, st);
      case Count(w) => CountKeepsIds(s, w);
      case Snapshot(w) => SnapshotKeepsIds(s, w);
      case SendNext(w) => SendKeepsIds(s, w);
      case End(w) => EndKeepsIds(s, w);
      case _ => ChangeKeepsIds(s, st);
    }
  }

  lemma {:induction false} RunKeepsIds(run: seq<State>, steps: seq<Step>, n: nat)
    requires IsRun(run, steps) && n < |run|
    ensures IdsOk(run[n])
  {
    if n == 0 {
    } else {
      RunKeepsIds(run, steps, n - 1);
      assert Follows(run, steps, n - 1);
      StepKeepsIds(run[n - 1], steps[n - 1]);
    }
  }

  /** In every interleaving of id allocation, address registration and the steps of both
      broadcasts, a running broadcast finds the id it looks up next; the registered ids are
      7, 8, ... without a gap, fit in 16 bits, and are new when registered; the iApp thread can
      take the next request until all of them are given out. */
  lemma LookupsAreFound(run: seq<State>, steps: seq<Step>, n: nat, w: Who)
    requires IsRun(run, steps) && n < |run|
    ensures var s := run[n];
            && (Running(s, w).Sending? && Running(s, w).next < FIRST_XAPP_ID + Running(s, w).num ==>
                  LookupFinds(s, w) && Enabled(s, SendNext(w)))
            && (forall id :: id in s.socks <==> 7 <= id < 7 + |s.socks|) && 7 + |s.socks| <= 65536
            && (s.pc.Snapped? ==> s.pc.id !in s.socks)
            && (s.pc.Listening? ==> forall x :: x in s.asking ==>
                  (Enabled(s, TakeSnapshot(x)) <==> 7 + |s.socks| < 65536))
  {
    RunKeepsIds(run, steps, n);
    ConsecutiveCount(run[n].socks.Keys, Joined(run[n]));
    assert |run[n].socks| == |run[n].socks.Keys|;
  }

  // ------------------------------------------------------------ nodes

  /** The node that was erased from conn_e2_nodes and is still in the registry. */
  function LeavingNode(b: Broadcast): set<NodeId> {
    if b.Leaving? then {b.node} else {}
  }

  /** Each registered node waits for the mutex, is in conn_e2_nodes or is leaving, and only
      one of these. */
  ghost predicate NodesOk(s: State) {
    s.log != [] && !s.setup.Leaving? && IsPartition(Current(s).Keys, s.due, s.conn, LeavingNode(s.shutdown))
  }

  ghost predicate IsPartition(all: set<NodeId>, a: set<NodeId>, b: set<NodeId>, c: set<NodeId>) {
    all == a + b + c && a !! b && c !! (a + b)
  }

  lemma UpKeepsNodes(s: State, n: NodeId, funcs: seq<RanFunction>)
    requires NodesOk(s) && Enabled(s, NodeUp(n, funcs))
    ensures NodesOk(Apply(s, NodeUp(n, funcs)))
  {
    assert Current(Apply(s, NodeUp(n, funcs))).Keys == Current(s).Keys + {n};
  }

  lemma AppendKeepsNodes(s: State, n: NodeId)
    requires NodesOk(s) && Enabled(s, Append(n))
    ensures NodesOk(Apply(s, Append(n)))
  {
  }

  lemma EraseKeepsNodes(s: State, n: NodeId)
    requires NodesOk(s) && Enabled(s, Erase(n))
    ensures NodesOk(Apply(s, Erase(n)))
  {
  }

  lemma DownKeepsNodes(s: State, n: NodeId)
    requires NodesOk(s) && Enabled(s, NodeDown(n))
    ensures NodesOk(Apply(s, NodeDown(n)))
  {
    assert Current(Apply(s, NodeDown(n))).Keys == Current(s).Keys - {n};
  }

  lemma RestKeepsNodes(s: State, st: Step)
    requires NodesOk(s) && Enabled(s, st) && !st.NodeUp? && !st.Append? && !st.Erase? && !st.NodeDown?
    ensures NodesOk(Apply(s, st))
  {
    if st.Count? || st.Snapshot? || st.SendNext? || st.End? {
      BroadcastKeepsLists(s, st);
    } else {
      SetupKeepsLists(s, st);
    }
  }

  lemma SetupKeepsLists(s: State, st: Step)
    requires Enabled(s, st)
    requires st.Ask? || st.TakeSnapshot? || st.RegisterSock? || st.SendResponse? || st.Receive?
    ensures var t := Apply(s, st);
            t.log == s.log && t.due == s.due && t.conn == s.conn && t.setup == s.setup && t.shutdown == s.shutdown
  {
  }

  lemma BroadcastKeepsLists(s: State, st: Step)
    requires Enabled(s, st) && (st.Count? || st.Snapshot? || st.SendNext? || st.End?)
    ensures var t := Apply(s, st);
            && t.log == s.log && t.due == s.due && t.conn == s.conn
            && (t.shutdown == s.shutdown || (!t.shutdown.Leaving? && !s.shutdown.Leaving?))
            && (t.setup.Leaving? ==> s.setup.Leaving?)
  {
  }

  lemma StepKeepsNodes(s: State, st: Step)
    requires NodesOk(s) && Enabled(s, st)
    ensures NodesOk(Apply(s, st))
  {
    match st {
      case NodeUp(n, funcs) => UpKeepsNodes(s, n, funcs);
      case Append(n) => AppendKeepsNodes(s, n);
      case Erase(n) => EraseKeepsNodes(s, n);
      case NodeDown(n) => DownKeepsNodes(s, n);
      case _ => RestKeepsNodes(s, st);
    }
  }

  /** In every run the registry holds exactly the nodes that wait for the mutex, are in
      conn_e2_nodes or are leaving, and a shutdown that passed the erase finds its node
      there. */
  lemma {:induction false} NodesAreAccounted(run: seq<State>, steps: seq<Step>, n: nat)
    requires IsRun(run, steps) && n < |run|
    ensures NodesOk(run[n]) && (run[n].shutdown.Leaving? ==> Enabled(run[n], NodeDown(run[n].shutdown.node)))
  {
    if n == 0 {
    } else {
      NodesAreAccounted(run, steps, n - 1);
      assert Follows(run, steps, n - 1);
      StepKeepsNodes(run[n - 1], steps[n - 1]);
    }
  }

  /** No node goes down before its own setup has ended its broadcast. */
  lemma OwnBroadcastComesFirst(run: seq<State>, steps: seq<Step>, j: nat, k: nat, n: NodeId)
    requires IsRun(run, steps) && j < k < |steps| && steps[j] == Append(n) && steps[k] == NodeDown(n)
    ensures exists i :: j < i < k && steps[i] == End(Setup)
  {
    if forall i :: j < i < k ==> steps[i] != End(Setup) {
      StaysAppended(run, steps, j, k, n);
      assert Follows(run, steps, k);
      NodesAreAccounted(run, steps, k);
    }
  }

  lemma {:induction false} StaysAppended(run: seq<State>, steps: seq<Step>, j: nat, k: nat, n: NodeId)
    requires IsRun(run, steps) && j < k < |run| && steps[j] == Append(n)
    requires forall i :: j < i < k ==> steps[i] != End(Setup)
    ensures n in run[k].conn && !run[k].setup.Quiet?
  {
    assert Follows(run, steps, k - 1);
    if k == j + 1 {
    } else {
      StaysAppended(run, steps, j, k - 1, n);
    }
  }

  /** The broadcast that took its snapshot in step j is still sending at state k. */
  ghost predicate SameBroadcast(run: seq<State>, steps: seq<Step>, w: Who, j: nat, k: nat)
    requires IsRun(run, steps) && j < k < |run|
  {
    steps[j] == Snapshot(w) && forall m :: j < m < k ==> steps[m] != End(w)
  }

  ghost predicate SendsTo(run: seq<State>, steps: seq<Step>, w: Who, m: nat, id: nat)
    requires IsRun(run, steps) && m < |steps|
  {
    steps[m] == SendNext(w) && Running(run[m], w).Sending? && Running(run[m], w).next == id
  }

  ghost predicate WasSent(run: seq<State>, steps: seq<Step>, w: Who, j: nat, k: nat, id: nat)
    requires IsRun(run, steps) && j < k < |run|
  {
    exists m :: j < m < k && SendsTo(run, steps, w, m, id)
  }

  lemma BroadcastAdvances(s: State, st: Step, w: Who)
    requires Enabled(s, st) && st != End(w) && Running(s, w).Sending?
    ensures var b, c := Running(s, w), Running(Apply(s, st), w);
            c == b.(next := b.next + if st == SendNext(w) then 1 else 0)
  {
  }

  /** What a broadcast looks like from its snapshot on. */
  lemma {:induction false} BroadcastGoesOn(run: seq<State>, steps: seq<Step>, w: Who, j: nat, k: nat)
    requires IsRun(run, steps) && j < k < |run| && SameBroadcast(run, steps, w, j, k)
    ensures Running(run[j], w).Counted?
    ensures var b := Running(run[k], w);
            && b.Sending? && b.num == Running(run[j], w).num && b.version == |run[j].log| - 1
            && b.next >= FIRST_XAPP_ID && (k == j + 1 ==> b.next == FIRST_XAPP_ID)
  {
    assert Follows(run, steps, k - 1);
    if k == j + 1 {
    } else {
      BroadcastGoesOn(run, steps, w, j, k - 1);
      BroadcastAdvances(run[k - 1], steps[k - 1], w);
    }
  }

  /** The id a running broadcast looks up next. */
  function NextId(s: State, w: Who): nat {
    if Running(s, w).Sending? then Running(s, w).next else 0
  }

  lemma NextStep(run: seq<State>, steps: seq<Step>, w: Who, j: nat, k: nat)
    requires IsRun(run, steps) && j + 1 < k < |run| && SameBroadcast(run, steps, w, j, k)
    ensures SameBroadcast(run, steps, w, j, k - 1)
    ensures NextId(run[k], w) == NextId(run[k - 1], w) + if steps[k - 1] == SendNext(w) then 1 else 0
    ensures steps[k - 1] == SendNext(w) ==> SendsTo(run, steps, w, k - 1, NextId(run[k - 1], w))
  {
    assert Follows(run, steps, k - 1);
    BroadcastGoesOn(run, steps, w, j, k - 1);
    BroadcastAdvances(run[k - 1], steps[k - 1], w);
  }

  /** The id to look up next never decreases, and increases with each one sent. */
  lemma {:induction false} NextGrows(run: seq<State>, steps: seq<Step>, w: Who, j: nat, m: nat, k: nat)
    requires IsRun(run, steps) && j < m < k < |run| && SameBroadcast(run, steps, w, j, k)
    ensures NextId(run[m], w) + (if steps[m] == SendNext(w) then 1 else 0) <= NextId(run[k], w)
  {
    NextStep(run, steps, w, j, k);
    if m == k - 1 {
    } else {
      NextGrows(run, steps, w, j, m, k - 1);
    }
  }

  lemma {:induction false} EachIdSent(run: seq<State>, steps: seq<Step>, w: Who, j: nat, k: nat, id: nat)
    requires IsRun(run, steps) && j < k < |run| && SameBroadcast(run, steps, w, j, k)
    requires FIRST_XAPP_ID <= id < NextId(run[k], w)
    ensures WasSent(run, steps, w, j, k, id)
  {
    BroadcastGoesOn(run, steps, w, j, k);
    if k == j + 1 {
    } else {
      NextStep(run, steps, w, j, k);
      if id == NextId(run[k - 1], w) {
        assert SendsTo(run, steps, w, k - 1, id);
      } else {
        EachIdSent(run, steps, w, j, k - 1, id);
        SentStays(run, steps, w, j, k, id);
      }
    }
  }

  lemma SentStays(run: seq<State>, steps: seq<Step>, w: Who, j: nat, k: nat, id: nat)
    requires IsRun(run, steps) && j + 1 < k < |run| && WasSent(run, steps, w, j, k - 1, id)
    ensures WasSent(run, steps, w, j, k, id)
  {
    var m :| j < m < k - 1 && SendsTo(run, steps, w, m, id);
    assert SendsTo(run, steps, w, m, id);
  }

  /** Broadcast completeness: whatever happens in between, a broadcast that ends has sent
      the one snapshot to each of the ids it counted in exactly one step, and to no other. */
  lemma EachIdOnce(run: seq<State>, steps: seq<Step>, w: Who, j: nat, k: nat, id: nat)
    requires IsRun(run, steps) && j < k < |steps| && SameBroadcast(run, steps, w, j, k) && steps[k] == End(w)
    ensures Running(run[j], w).Counted?
    ensures WasSent(run, steps, w, j, k, id) <==> FIRST_XAPP_ID <= id < FIRST_XAPP_ID + Running(run[j], w).num
    ensures forall m, l :: j < m < k && j < l < k && SendsTo(run, steps, w, m, id) && SendsTo(run, steps, w, l, id)
              ==> m == l
    ensures forall m :: j < m < k && SendsTo(run, steps, w, m, id) ==> Running(run[m], w).version == |run[j].log| - 1
  {
    assert Follows(run, steps, k);
    BroadcastGoesOn(run, steps, w, j, k);
    if FIRST_XAPP_ID <= id < FIRST_XAPP_ID + Running(run[j], w).num {
      EachIdSent(run, steps, w, j, k, id);
    }
    forall m | j < m < k && SendsTo(run, steps, w, m, id)
      ensures FIRST_XAPP_ID <= id < FIRST_XAPP_ID + Running(run[j], w).num
      ensures Running(run[m], w).version == |run[j].log| - 1
    {
      NextGrows(run, steps, w, j, m, k);
      BroadcastGoesOn(run, steps, w, j, m);
    }
    forall m, l | j < m < l < k && SendsTo(run, steps, w, m, id) ensures !SendsTo(run, steps, w, l, id) {
      NextGrows(run, steps, w, j, m, l);
    }
  }

  // ------------------------------------------------------------ the broadcast as a loop

  /** Each of the ids from `first` to `last` - 1 is sent the message once, in that order. */
  function SentTo(xapps: map<nat, XApp>, socks: map<nat, nat>, m: Msg, first: nat, last: nat): map<nat, XApp>
    decreases last - first
  {
    if first >= last || last - 1 !in socks then xapps
    else
      var before := SentTo(xapps, socks, m, first, last - 1);
      if socks[last - 1] in before then Posted(before, socks[last - 1], m) else before
  }

  /** The ids of an xApp from `first` to `last` - 1. */
  function IdsOf(socks: map<nat, nat>, x: nat, first: nat, last: nat): set<nat> {
    set id | id in socks && first <= id < last && socks[id] == x
  }

  function Copies(m: Msg, k: nat): seq<Msg> {
    seq(k, _ => m)
  }

  lemma IdsOfNext(socks: map<nat, nat>, x: nat, first: nat, last: nat)
    requires first < last && last - 1 in socks
    ensures |IdsOf(socks, x, first, last)|
            == |IdsOf(socks, x, first, last - 1)| + if socks[last - 1] == x then 1 else 0
  {
    var before := IdsOf(socks, x, first, last - 1);
    assert IdsOf(socks, x, first, last) == before + if socks[last - 1] == x then {last - 1} else {};
  }

  /** Each xApp gets one copy of the message for each of its ids, after all it was sent
      before, and is otherwise unchanged. */
  lemma {:induction false} OneCopyForEachId(xapps: map<nat, XApp>, socks: map<nat, nat>, m: Msg, first: nat, last: nat,
                                            x: nat)
    requires first <= last && x in xapps
    requires forall id :: first <= id < last ==> id in socks && socks[id] in xapps
    ensures var after := SentTo(xapps, socks, m, first, last);
            && after.Keys == xapps.Keys
            && after[x] == xapps[x].(sent := xapps[x].sent + Copies(m, |IdsOf(socks, x, first, last)|))
    decreases last
  {
    if first == last {
      assert IdsOf(socks, x, first, last) == {};
      assert xapps[x].sent + Copies(m, 0) == xapps[x].sent;
    } else {
      OneCopyForEachId(xapps, socks, m, first, last - 1, x);
      IdsOfNext(socks, x, first, last);
      var k := |IdsOf(socks, x, first, last - 1)|;
      assert (xapps[x].sent + Copies(m, k)) + [m] == xapps[x].sent + Copies(m, k + 1);
    }
  }

  class IAppXapps {
    var socks: map<nat, nat>
    var xapps: map<nat, XApp>

    ghost predicate Valid(n: nat)
      reads this
    {
      Consecutive(socks.Keys, n) && forall id :: id in socks ==> socks[id] in xapps
    }

    /** add_map_xapps_sad asserts that the id is new; the iApp hands them out one by one. */
    method AddMapXappsSad(ghost n: nat, x: nat)
      requires Valid(n) && x in xapps
      modifies this`socks
      ensures Valid(n + 1) && socks == old(socks)[FIRST_XAPP_ID + |old(socks)| := x]
    {
      ConsecutiveCount(socks.Keys, n);
      assert |socks| == |socks.Keys|;
      socks := socks[FIRST_XAPP_ID + |socks| := x];
    }

    /** generate_update_e2_node: counts the registered xApps, then looks up the ids from 7 on,
        one for each. Before the k-th of them, joins[k] xApps register: they are not counted
        and get nothing, and no lookup fails. */
    method GenerateUpdateE2Node(m: Msg, ghost n: nat, joins: seq<seq<nat>>)
      requires Valid(n) && |joins| == n
      requires forall k, i :: 0 <= k < n && 0 <= i < |joins[k]| ==> joins[k][i] in xapps
      modifies this
      ensures xapps.Keys == old(xapps.Keys)
      ensures forall x :: x in xapps ==>
                var ids := set id | id in old(socks) && old(socks)[id] == x;
                xapps[x] == old(xapps)[x].(sent := old(xapps)[x].sent + Copies(m, |ids|))
      ensures forall id :: id in old(socks) ==> id in socks && socks[id] == old(socks)[id]
    {
      ConsecutiveCount(socks.Keys, n);
      assert |socks| == |socks.Keys|;
      var num := |socks|;
      var i := FIRST_XAPP_ID;
      ghost var joined := n;
      while i < FIRST_XAPP_ID + num
        invariant FIRST_XAPP_ID <= i <= FIRST_XAPP_ID + num && n <= joined && Valid(joined)
        invariant xapps.Keys == old(xapps.Keys)
        invariant xapps == SentTo(old(xapps), old(socks), m, FIRST_XAPP_ID, i)
        invariant forall id :: id in old(socks) ==> id in socks && socks[id] == old(socks)[id]
      {
        joined := JoinAll(joined, joins[i - FIRST_XAPP_ID]);
        assert i in old(socks);
        xapps := Posted(xapps, socks[i], m);
        i := i + 1;
      }
      forall x | x in old(xapps)
        ensures var ids := set id | id in old(socks) && old(socks)[id] == x;
                xapps[x] == old(xapps)[x].(sent := old(xapps)[x].sent + Copies(m, |ids|))
      {
        OneCopyForEachId(old(xapps), old(socks), m, FIRST_XAPP_ID, i, x);
        assert IdsOf(old(socks), x, FIRST_XAPP_ID, i) == set id | id in old(socks) && old(socks)[id] == x;
      }
    }

    method JoinAll(ghost n: nat, xs: seq<nat>) returns (ghost more: nat)
      requires Valid(n) && forall k :: 0 <= k < |xs| ==> xs[k] in xapps
      modifies this`socks
      ensures more == n + |xs| && Valid(more)
      ensures forall id :: id in old(socks) ==> id in socks && socks[id] == old(socks)[id]
    {
      more := n;
      var k := 0;
      while k < |xs|
        invariant 0 <= k <= |xs| && more == n + k && Valid(more)
        invariant forall id :: id in old(socks) ==> id in socks && socks[id] == old(socks)[id]
      {
        ConsecutiveCount(socks.Keys, more);
        assert |socks| == |socks.Keys|;
        AddMapXappsSad(more, xs[k]);
        more := more + 1;
        k := k + 1;
      }
    }
  }
}
