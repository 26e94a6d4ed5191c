// The RIC's three views of the connected E2 nodes: the node/address map, conn_e2_nodes and
// the iApp's registry (src/ric/near_ric.c, msg_handler_ric.c, not_handler_ric.c,
// map_e2_node_sockaddr.c, iApp/e42_iapp.c).
module Connections {
  import opened Ids
  import opened RegE2Nodes
  import opened SearchTree

  // ------------------------------------------------------------ between handlers

  class MapE2NodeSad {
    var left: map<NodeId, SockAddr>
    var right: map<SockAddr, NodeId>

    ghost predicate Valid()
      reads this
    {
      && (forall n :: n in left ==> left[n] in right && right[left[n]] == n)
      && (forall a :: a in right ==> right[a] in left && left[right[a]] == a)
    }

    constructor ()
      ensures Valid() && left == map[] && right == map[]
    {
      left, right := map[], map[];
    }

    method AddMapE2NodeSad(id: NodeId, a: SockAddr)
      requires Valid() && id !in left && a !in right
      modifies this
      ensures Valid() && left == old(left)[id := a] && right == old(right)[a := id]
    {
      left, right := left[id := a], right[a := id];
    }

    method RmMapSadE2Node(a: SockAddr) returns (id: NodeId)
      requires Valid() && a in right
      modifies this
      ensures id == old(right)[a] && Valid() && left == old(left) - {id} && right == old(right) - {a}
    {
      id := right[a];
      left, right := left - {id}, right - {a};
    }

    method FindMapE2NodeSad(id: NodeId) returns (a: SockAddr)
      requires Valid() && id in left
      ensures a in right && right[a] == id
    {
      a := left[id];
    }
  }

  ghost predicate NoDuplicates(s: seq<NodeId>) {
    forall i, j :: 0 <= i < j < |s| ==> s[i] != s[j]
  }

  class RicNodes {
    const e2Nodes: MapE2NodeSad
    var connE2Nodes: seq<NodeId>
    const iapp: RegE2Node

    /** The three views hold the same nodes, each once. */
    ghost predicate Valid()
      reads this, e2Nodes, iapp
    {
      && e2Nodes.Valid() && iapp.Valid() && NoDuplicates(connE2Nodes)
      && (forall n :: n in connE2Nodes <==> n in e2Nodes.left)
      && (forall n :: n in connE2Nodes <==> Registered(iapp.entries, n))
    }

    constructor ()
      ensures Valid() && fresh(e2Nodes) && fresh(iapp) && connE2Nodes == []
    {
      e2Nodes := new MapE2NodeSad();
      iapp := new RegE2Node();
      connE2Nodes := [];
    }

    /** A setup request of a node that is not connected, from an address not in use. */
    method HandleSetupRequest(id: NodeId, funcs: seq<RanFunction>, a: SockAddr)
      requires Valid() && id !in connE2Nodes && a !in e2Nodes.right && funcs != []
      modifies this, e2Nodes, iapp
      ensures Valid()
      ensures connE2Nodes == old(connE2Nodes) + [id] && e2Nodes.left == old(e2Nodes.left)[id := a]
      ensures forall e :: e in iapp.entries <==> e in old(iapp.entries) || e == Entry(id, funcs)
    {
      e2Nodes.AddMapE2NodeSad(id, a);
      iapp.AddRegE2Node(id, funcs);
      connE2Nodes := connE2Nodes + [id];
      RegisteredAfterAdd(old(iapp.entries), iapp.entries, Entry(id, funcs));
    }

    /** A peer that set up its connection shuts it down: its entry is found in all three
        views and leaves them all. */
    method NotificationHandleRic(a: SockAddr)
      requires Valid() && a in e2Nodes.right
      modifies this, e2Nodes, iapp
      ensures Valid()
      ensures var id := old(e2Nodes.right)[a];
              && id in old(connE2Nodes) && id !in connE2Nodes && id !in e2Nodes.left
              && |connE2Nodes| == |old(connE2Nodes)| - 1
              && (forall n :: n in connE2Nodes <==> n in old(connE2Nodes) && n != id)
              && (forall e :: e in iapp.entries <==> e in old(iapp.entries) && e.node != id)
    {
      var id := e2Nodes.RmMapSadE2Node(a);
      EraseConnected(id);
      iapp.RmRegE2Node(id);
      RegisteredAfterRm(old(iapp.entries), iapp.entries, id);
    }

    method EraseConnected(id: NodeId)
      requires NoDuplicates(connE2Nodes) && id in connE2Nodes
      modifies this`connE2Nodes
      ensures NoDuplicates(connE2Nodes) && |connE2Nodes| == |old(connE2Nodes)| - 1
      ensures forall n :: n in connE2Nodes <==> n in old(connE2Nodes) && n != id
    {
      var p := 0;
      while connE2Nodes[p] != id
        invariant 0 <= p < |connE2Nodes| && connE2Nodes == old(connE2Nodes)
        invariant id in connE2Nodes[p..]
        decreases |connE2Nodes| - p
      {
        p := p + 1;
      }
      ErasedHolds(connE2Nodes, p);
      connE2Nodes := connE2Nodes[..p] + connE2Nodes[p + 1..];
    }
  }

  lemma RegisteredAfterAdd(s: seq<Entry>, t: seq<Entry>, e: Entry)
    requires forall x :: x in t <==> x in s || x == e
    ensures forall n :: Registered(t, n) <==> Registered(s, n) || n == e.node
  {
    forall n ensures Registered(t, n) <==> Registered(s, n) || n == e.node {
      RegisteredIsListed(s, n);
      RegisteredIsListed(t, n);
    }
  }

  lemma RegisteredAfterRm(s: seq<Entry>, t: seq<Entry>, id: NodeId)
    requires forall x :: x in t <==> x in s && x.node != id
    ensures forall n :: Registered(t, n) <==> Registered(s, n) && n != id
  {
    forall n ensures Registered(t, n) <==> Registered(s, n) && n != id {
      RegisteredIsListed(s, n);
      RegisteredIsListed(t, n);
    }
  }

  lemma RegisteredIsListed(s: seq<Entry>, n: NodeId)
    ensures Registered(s, n) <==> exists e :: e in s && e.node == n
  {
    if Registered(s, n) {
      var i :| 0 <= i < |s| && s[i].node == n;
      assert s[i] in s;
    }
  }

  lemma ErasedHolds(s: seq<NodeId>, p: nat)
    requires NoDuplicates(s) && p < |s|
    ensures NoDuplicates(s[..p] + s[p + 1..])
    ensures forall n :: n in s[..p] + s[p + 1..] <==> n in s && n != s[p]
  {
    var rest := s[..p] + s[p + 1..];
    forall n | n in s && n != s[p] ensures n in rest {
      var i :| 0 <= i < |s| && s[i] == n;
      assert rest[if i < p then i else i - 1] == n;
    }
  }

  // ------------------------------------------------------------ handlers in parallel

  /** An entry of the node/address map. */
  datatype Link = Link(node: NodeId, addr: SockAddr)

  /** The event loop handles one shutdown at a time: it has the peer's address, then took
      the link out, then the node out of conn_e2_nodes. */
  datatype Shutdown = NoShutdown | Notified(a: SockAddr) | Unaddressed(n: NodeId) | Erased(n: NodeId)

  /** `byNode` and `byAddr` are the two trees of the node/address map. Setup requests are
      handled by parallel tasks: `arrived` were dispatched, `addressed` registered their
      address, `known` told the iApp. A node may have several at once, since agents resend.
      The rest are histories of what was done to the map (`registered`, `removed`), to the
      iApp's registry (`told`, `forgotten`) and to conn_e2_nodes (`appended`, `erased`). */
  datatype Views = Views(
    byNode: Tree<NodeId, SockAddr>, byAddr: Tree<SockAddr, NodeId>, conn: seq<NodeId>, reg: set<NodeId>,
    arrived: multiset<Link>, addressed: multiset<NodeId>, known: multiset<NodeId>, down: Shutdown,
    registered: multiset<Link>, removed: multiset<Link>,
    told: multiset<NodeId>, forgotten: multiset<NodeId>,
    appended: multiset<NodeId>, erased: multiset<NodeId>)

  datatype Step =
    | Arrive(l: Link) | RegisterAddr(l: Link) | TellIApp(n: NodeId) | Append(n: NodeId)
    | Notify(a: SockAddr) | RemoveAddr | Erase | Forget
    | Rebalance(t: Tree<NodeId, SockAddr>, u: Tree<SockAddr, NodeId>)

  /** Setup requests, resent ones included, and shutdowns come at any time; while the event
      loop handles a shutdown it dispatches nothing. The trees may be rotated into any shape
      that keeps the order of their entries. */
  predicate Enabled(v: Views, st: Step) {
    match st
    case Arrive(_) => v.down.NoShutdown?
    case RegisterAddr(l) => l in v.arrived
    case TellIApp(n) => n in v.addressed
    case Append(n) => n in v.known
    case Notify(_) => v.down.NoShutdown?
    case RemoveAddr => v.down.Notified?
    case Erase => v.down.Unaddressed?
    case Forget => v.down.Erased?
    case Rebalance(t, u) => InOrder(t) == InOrder(v.byNode) && InOrder(u) == InOrder(v.byAddr)
  }

  /** What bi_map_extract_right asserts: the address is found in one tree, the node it leads
      to is found in the other, and leads back to the address. */
  predicate Removable(byNode: Tree<NodeId, SockAddr>, byAddr: Tree<SockAddr, NodeId>, a: SockAddr) {
    var n := Find(byAddr, a, CmpSockAddr);
    n.Some? && Find(byNode, n.value, CmpNode) == Some(a)
  }

  /** add_reg_e2_node asserts that the node is new, find_if on conn_e2_nodes and
      rm_reg_e2_node that it is there. */
  predicate AssertHolds(v: Views, st: Step)
    requires Enabled(v, st)
  {
    match st
    case TellIApp(n) => n !in v.reg
    case RemoveAddr => Removable(v.byNode, v.byAddr, v.down.a)
    case Erase => v.down.n in v.conn
    case Forget => v.down.n in v.reg
    case _ => true
  }

  function Without(s: seq<NodeId>, n: NodeId): seq<NodeId> {
    if s == [] then [] else if s[0] == n then s[1..] else [s[0]] + Without(s[1..], n)
  }

  function Apply(v: Views, st: Step): Views
    requires Enabled(v, st) && AssertHolds(v, st)
  {
    match st
    case Arrive(l) => v.(arrived := v.arrived + multiset{l})
    case RegisterAddr(l) =>
      v.(arrived := v.arrived - multiset{l}, addressed := v.addressed + multiset{l.node},
         byNode := Insert(v.byNode, l.node, l.addr, CmpNode), byAddr := Insert(v.byAddr, l.addr, l.node, CmpSockAddr),
         registered := v.registered + multiset{l})
    case TellIApp(n) =>
      v.(addressed := v.addressed - multiset{n}, known := v.known + multiset{n},
         reg := v.reg + {n}, told := v.told + multiset{n})
    case Append(n) =>
      v.(known := v.known - multiset{n}, conn := v.conn + [n], appended := v.appended + multiset{n})
    case Notify(a) => v.(down := Notified(a))
    case RemoveAddr =>
      var n := Find(v.byAddr, v.down.a, CmpSockAddr).value;
      v.(byNode := Extract(v.byNode, n, CmpNode), byAddr := Extract(v.byAddr, v.down.a, CmpSockAddr),
         removed := v.removed + multiset{Link(n, v.down.a)}, down := Unaddressed(n))
    case Erase =>
      v.(conn := Without(v.conn, v.down.n), down := Erased(v.down.n), erased := v.erased + multiset{v.down.n})
    case Forget =>
      v.(reg := v.reg - {v.down.n}, down := NoShutdown, forgotten := v.forgotten + multiset{v.down.n})
    case Rebalance(t, u) => v.(byNode := t, byAddr := u)
  }

  const START := Views(Leaf, Leaf, [], {}, multiset{}, multiset{}, multiset{}, NoShutdown, multiset{}, multiset{},
                       multiset{}, multiset{}, multiset{}, multiset{})

  ghost predicate Follows(run: seq<Views>, steps: seq<Step>, i: nat)
    requires i < |steps| < |run|
  {
    Enabled(run[i], steps[i]) && AssertHolds(run[i], steps[i]) && run[i + 1] == Apply(run[i], steps[i])
  }

  /** A run goes on as long as no assert fails. */
  ghost predicate IsRun(run: seq<Views>, steps: seq<Step>) {
    |run| == |steps| + 1 && run[0] == START && forall i: nat :: i < |steps| ==> Follows(run, steps, i)
  }

  // ------------------------------------------------------------ the address map

  function NodeLinks(s: seq<(NodeId, SockAddr)>): (r: seq<Link>)
    ensures |r| == |s| && forall i :: 0 <= i < |s| ==> r[i] == Link(s[i].0, s[i].1)
  {
    seq(|s|, i requires 0 <= i < |s| => Link(s[i].0, s[i].1))
  }

  function AddrLinks(s: seq<(SockAddr, NodeId)>): (r: seq<Link>)
    ensures |r| == |s| && forall i :: 0 <= i < |s| ==> r[i] == Link(s[i].1, s[i].0)
  {
    seq(|s|, i requires 0 <= i < |s| => Link(s[i].1, s[i].0))
  }

  function NodesIn(s: seq<(NodeId, SockAddr)>): (r: seq<NodeId>)
    ensures |r| == |s| && forall i :: 0 <= i < |s| ==> r[i] == s[i].0
  {
    seq(|s|, i requires 0 <= i < |s| => s[i].0)
  }

  /** Both trees are search trees that hold the links that were registered and not removed. */
  ghost predicate TreesOk(v: Views) {
    && SortedBy(InOrder(v.byNode), CmpNode) && SortedBy(InOrder(v.byAddr), CmpSockAddr)
    && multiset(NodeLinks(InOrder(v.byNode))) + v.removed == v.registered
    && multiset(AddrLinks(InOrder(v.byAddr))) + v.removed == v.registered
  }

  lemma NodeLinksSplit(a: seq<(NodeId, SockAddr)>, l: Link, b: seq<(NodeId, SockAddr)>)
    ensures multiset(NodeLinks(a + [(l.node, l.addr)] + b)) == multiset(NodeLinks(a + b)) + multiset{l}
  {
    assert NodeLinks(a + [(l.node, l.addr)] + b) == NodeLinks(a) + [l] + NodeLinks(b);
    assert NodeLinks(a + b) == NodeLinks(a) + NodeLinks(b);
  }

  lemma NodesInSplit(a: seq<(NodeId, SockAddr)>, l: Link, b: seq<(NodeId, SockAddr)>)
    ensures multiset(NodesIn(a + [(l.node, l.addr)] + b)) == multiset(NodesIn(a + b)) + multiset{l.node}
  {
    assert NodesIn(a + [(l.node, l.addr)] + b) == NodesIn(a) + [l.node] + NodesIn(b);
    assert NodesIn(a + b) == NodesIn(a) + NodesIn(b);
  }

  lemma AddrLinksSplit(a: seq<(SockAddr, NodeId)>, l: Link, b: seq<(SockAddr, NodeId)>)
    ensures multiset(AddrLinks(a + [(l.addr, l.node)] + b)) == multiset(AddrLinks(a + b)) + multiset{l}
  {
    assert AddrLinks(a + [(l.addr, l.node)] + b) == AddrLinks(a) + [l] + AddrLinks(b);
    assert AddrLinks(a + b) == AddrLinks(a) + AddrLinks(b);
  }

  lemma NodeInserted(t: Tree<NodeId, SockAddr>, l: Link)
    requires SortedBy(InOrder(t), CmpNode)
    ensures var u := InOrder(Insert(t, l.node, l.addr, CmpNode));
            && SortedBy(u, CmpNode) && multiset(NodeLinks(u)) == multiset(NodeLinks(InOrder(t))) + multiset{l}
            && multiset(NodesIn(u)) == multiset(NodesIn(InOrder(t))) + multiset{l.node}
  {
    AddressComparatorsAreTotalOrders();
    var a, b := InsertSplits(t, l.node, l.addr, CmpNode);
    NodeLinksSplit(a, l, b);
    NodesInSplit(a, l, b);
    InsertKeepsSorted(t, l.node, l.addr, CmpNode);
  }

  lemma AddrInserted(t: Tree<SockAddr, NodeId>, l: Link)
    requires SortedBy(InOrder(t), CmpSockAddr)
    ensures var u := InOrder(Insert(t, l.addr, l.node, CmpSockAddr));
            SortedBy(u, CmpSockAddr) && multiset(AddrLinks(u)) == multiset(AddrLinks(InOrder(t))) + multiset{l}
  {
    AddressComparatorsAreTotalOrders();
    var a, b := InsertSplits(t, l.addr, l.node, CmpSockAddr);
    AddrLinksSplit(a, l, b);
    InsertKeepsSorted(t, l.addr, l.node, CmpSockAddr);
  }

  lemma NodeExtracted(t: Tree<NodeId, SockAddr>, l: Link)
    requires SortedBy(InOrder(t), CmpNode) && Find(t, l.node, CmpNode) == Some(l.addr)
    ensures var u := InOrder(Extract(t, l.node, CmpNode));
            && SortedBy(u, CmpNode) && multiset(NodeLinks(InOrder(t))) == multiset(NodeLinks(u)) + multiset{l}
            && multiset(NodesIn(InOrder(t))) == multiset(NodesIn(u)) + multiset{l.node}
  {
    AddressComparatorsAreTotalOrders();
    var a, b := ExtractSplits(t, l.node, CmpNode);
    NodeLinksSplit(a, l, b);
    NodesInSplit(a, l, b);
    ExtractKeepsSorted(t, l.node, CmpNode);
  }

  lemma AddrExtracted(t: Tree<SockAddr, NodeId>, l: Link)
    requires SortedBy(InOrder(t), CmpSockAddr) && Find(t, l.addr, CmpSockAddr) == Some(l.node)
    ensures var u := InOrder(Extract(t, l.addr, CmpSockAddr));
            SortedBy(u, CmpSockAddr) && multiset(AddrLinks(InOrder(t))) == multiset(AddrLinks(u)) + multiset{l}
  {
    AddressComparatorsAreTotalOrders();
    var a, b := ExtractSplits(t, l.addr, CmpSockAddr);
    AddrLinksSplit(a, l, b);
    ExtractKeepsSorted(t, l.addr, CmpSockAddr);
  }

  lemma StepKeepsTrees(v: Views, st: Step)
    requires TreesOk(v) && Enabled(v, st) && AssertHolds(v, st)
    ensures TreesOk(Apply(v, st))
  {
    match st {
      case RegisterAddr(l) => RegisterKeepsTrees(v, l);
      case RemoveAddr => RemoveKeepsTrees(v);
      case _ => RestKeepsTrees(v, st);
    }
  }

  lemma RestKeepsTrees(v: Views, st: Step)
    requires TreesOk(v) && Enabled(v, st) && AssertHolds(v, st) && !st.RegisterAddr? && !st.RemoveAddr?
    ensures TreesOk(Apply(v, st))
  {
    var w := Apply(v, st);
    assert InOrder(w.byNode) == InOrder(v.byNode) && InOrder(w.byAddr) == InOrder(v.byAddr);
    assert w.registered == v.registered && w.removed == v.removed;
  }

  lemma RegisterKeepsTrees(v: Views, l: Link)
    requires TreesOk(v) && Enabled(v, RegisterAddr(l))
    ensures TreesOk(Apply(v, RegisterAddr(l)))
  {
    NodeInserted(v.byNode, l);
    AddrInserted(v.byAddr, l);
  }

  lemma RemoveKeepsTrees(v: Views)
    requires TreesOk(v) && Enabled(v, RemoveAddr) && AssertHolds(v, RemoveAddr)
    ensures TreesOk(Apply(v, RemoveAddr))
  {
    var l := Link(Find(v.byAddr, v.down.a, CmpSockAddr).value, v.down.a);
    NodeExtracted(v.byNode, l);
    AddrExtracted(v.byAddr, l);
  }

  // ------------------------------------------------------------ accounts

  /** How often each view lists a node. */
  function Linked(v: Views, n: NodeId): nat {
    multiset(NodesIn(InOrder(v.byNode)))[n]
  }

  function Connected(v: Views, n: NodeId): nat {
    multiset(v.conn)[n]
  }

  function Registrations(v: Views, n: NodeId): nat {
    if n in v.reg then 1 else 0
  }

  /** What the views say of a node is determined by how far its handlers got. */
  ghost predicate Accounted(v: Views, n: NodeId) {
    && Registrations(v, n) + v.forgotten[n] == v.told[n]
    && Connected(v, n) + v.erased[n] == v.appended[n]
    && v.appended[n] + v.known[n] == v.told[n]
    && v.erased[n] == v.forgotten[n] + (if v.down == Erased(n) then 1 else 0)
    && Linked(v, n) + v.erased[n] + (if v.down == Unaddressed(n) then 1 else 0) == v.told[n] + v.addressed[n]
  }

  ghost predicate Inv(v: Views) {
    TreesOk(v) && forall n :: Accounted(v, n)
  }

  lemma {:induction false} WithoutOne(s: seq<NodeId>, n: NodeId)
    ensures multiset(Without(s, n)) == multiset(s) - multiset{n}
  {
    if s == [] {
    } else {
      assert s == [s[0]] + s[1..];
      WithoutOne(s[1..], n);
    }
  }

  lemma TellKeepsAccount(v: Views, m: NodeId, n: NodeId)
    requires Accounted(v, n) && Enabled(v, TellIApp(m)) && AssertHolds(v, TellIApp(m))
    ensures Accounted(Apply(v, TellIApp(m)), n)
  {
    assert Linked(Apply(v, TellIApp(m)), n) == Linked(v, n);
    assert v.addressed[m] > 0;
  }

  lemma AppendKeepsAccount(v: Views, m: NodeId, n: NodeId)
    requires Accounted(v, n) && Enabled(v, Append(m))
    ensures Accounted(Apply(v, Append(m)), n)
  {
    assert v.known[m] > 0;
    assert multiset(v.conn + [m]) == multiset(v.conn) + multiset{m};
  }

  lemma EraseKeepsAccount(v: Views, n: NodeId)
    requires Accounted(v, n) && Enabled(v, Erase) && AssertHolds(v, Erase)
    ensures Accounted(Apply(v, Erase), n)
  {
    assert Linked(Apply(v, Erase), n) == Linked(v, n);
    WithoutOne(v.conn, v.down.n);
  }

  lemma ForgetKeepsAccount(v: Views, n: NodeId)
    requires Accounted(v, n) && Enabled(v, Forget) && AssertHolds(v, Forget)
    ensures Accounted(Apply(v, Forget), n)
  {
  }

  lemma AddrKeepsAccount(v: Views, l: Link, n: NodeId)
    requires TreesOk(v) && Accounted(v, n) && Enabled(v, RegisterAddr(l))
    ensures Accounted(Apply(v, RegisterAddr(l)), n)
  {
    NodeInserted(v.byNode, l);
  }

  lemma RemovalUnlinks(v: Views, n: NodeId)
    requires TreesOk(v) && Enabled(v, RemoveAddr) && AssertHolds(v, RemoveAddr)
    ensures var w := Apply(v, RemoveAddr); Linked(v, n) == Linked(w, n) + if w.down == Unaddressed(n) then 1 else 0
  {
    NodeExtracted(v.byNode, Link(Find(v.byAddr, v.down.a, CmpSockAddr).value, v.down.a));
  }

  lemma RemovalKeepsAccount(v: Views, n: NodeId)
    requires TreesOk(v) && Accounted(v, n) && Enabled(v, RemoveAddr) && AssertHolds(v, RemoveAddr)
    ensures Accounted(Apply(v, RemoveAddr), n)
  {
    RemovalUnlinks(v, n);
  }

  lemma StepKeepsAccount(v: Views, st: Step, n: NodeId)
    requires TreesOk(v) && Accounted(v, n) && Enabled(v, st) && AssertHolds(v, st)
    ensures Accounted(Apply(v, st), n)
  {
    match st {
      case RegisterAddr(l) => AddrKeepsAccount(v, l, n);
      case RemoveAddr => RemovalKeepsAccount(v, n);
      case TellIApp(m) => TellKeepsAccount(v, m, n);
      case Append(m) => AppendKeepsAccount(v, m, n);
      case Erase => EraseKeepsAccount(v, n);
      case Forget => ForgetKeepsAccount(v, n);
      case _ =>
    }
  }

  lemma {:induction false} RunKeepsInv(run: seq<Views>, steps: seq<Step>, i: nat)
    requires IsRun(run, steps) && i < |run|
    ensures Inv(run[i])
  {
    if i == 0 {
    } else {
      RunKeepsInv(run, steps, i - 1);
      assert Follows(run, steps, i - 1);
      StepKeepsTrees(run[i - 1], steps[i - 1]);
      forall n ensures Accounted(run[i], n) {
        StepKeepsAccount(run[i - 1], steps[i - 1], n);
      }
    }
  }

  /** No handler is working on the node. */
  predicate Idle(v: Views, n: NodeId) {
    n !in v.addressed && n !in v.known && v.down != Unaddressed(n) && v.down != Erased(n)
  }

  /** Three views agree: in every interleaving of setups, resent setups and shutdowns, the
      three views list each node no handler is working on the same number of times, which is
      once or not at all. */
  lemma ViewsAgree(run: seq<Views>, steps: seq<Step>, i: nat, n: NodeId)
    requires IsRun(run, steps) && i < |run| && Idle(run[i], n)
    ensures Linked(run[i], n) == Connected(run[i], n) == Registrations(run[i], n) <= 1
  {
    RunKeepsInv(run, steps, i);
    assert Accounted(run[i], n);
  }

  /** A setup task finds its node new exactly if every earlier setup of the node that told
      the iApp was undone by a shutdown. */
  lemma SetupSurvivesIff(run: seq<Views>, steps: seq<Step>, i: nat, n: NodeId)
    requires IsRun(run, steps) && i < |run| && Enabled(run[i], TellIApp(n))
    ensures AssertHolds(run[i], TellIApp(n)) <==> run[i].told[n] == run[i].forgotten[n]
  {
    RunKeepsInv(run, steps, i);
    assert Accounted(run[i], n);
  }

  /** A shutdown finds the node in conn_e2_nodes exactly if more setups of the node were
      appended than erased: its setup came to its end before the shutdown came to the
      erase, not necessarily before it came. */
  lemma ShutdownSurvivesIff(run: seq<Views>, steps: seq<Step>, i: nat)
    requires IsRun(run, steps) && i < |run| && Enabled(run[i], Erase)
    ensures var n := run[i].down.n;
            AssertHolds(run[i], Erase) <==> run[i].appended[n] > run[i].erased[n]
  {
    RunKeepsInv(run, steps, i);
    assert Accounted(run[i], run[i].down.n);
  }

  /** A shutdown that passed the erase always finds the node in the iApp's registry: a setup
      tells the iApp before it appends. */
  lemma ForgetNeverFails(run: seq<Views>, steps: seq<Step>, i: nat)
    requires IsRun(run, steps) && i < |run| && Enabled(run[i], Forget)
    ensures AssertHolds(run[i], Forget)
  {
    RunKeepsInv(run, steps, i);
    assert Accounted(run[i], run[i].down.n);
  }

  /** The link was registered more often than removed. */
  predicate Live(v: Views, l: Link) {
    v.registered[l] > v.removed[l]
  }

  /** Each tree finds a link of the node, or of the address, exactly if there is a live one,
      and then finds a live one; which one depends on its shape. */
  lemma FindIsLive(v: Views, n: NodeId, a: SockAddr)
    requires TreesOk(v)
    ensures Find(v.byNode, n, CmpNode).Some? ==> Live(v, Link(n, Find(v.byNode, n, CmpNode).value))
    ensures Find(v.byAddr, a, CmpSockAddr).Some? ==> Live(v, Link(Find(v.byAddr, a, CmpSockAddr).value, a))
    ensures Live(v, Link(n, a)) ==> (n, a) in InOrder(v.byNode) && (a, n) in InOrder(v.byAddr)
    ensures Live(v, Link(n, a)) ==> Find(v.byNode, n, CmpNode).Some? && Find(v.byAddr, a, CmpSockAddr).Some?
  {
    AddressComparatorsAreTotalOrders();
    FindIffHeld(v.byNode, n, CmpNode);
    FindIffHeld(v.byAddr, a, CmpSockAddr);
    forall m, b ensures (m, b) in InOrder(v.byNode) <==> Live(v, Link(m, b)) {
      NodeLinkIsLive(v, m, b);
    }
    forall m, b ensures (b, m) in InOrder(v.byAddr) <==> Live(v, Link(m, b)) {
      AddrLinkIsLive(v, m, b);
    }
  }

  lemma NodeLinkIsLive(v: Views, n: NodeId, a: SockAddr)
    requires TreesOk(v)
    ensures (n, a) in InOrder(v.byNode) <==> Live(v, Link(n, a))
  {
    var s := InOrder(v.byNode);
    assert Live(v, Link(n, a)) <==> Link(n, a) in NodeLinks(s);
    if (n, a) in s {
      var i :| 0 <= i < |s| && s[i] == (n, a);
      assert NodeLinks(s)[i] == Link(n, a);
    }
  }

  lemma AddrLinkIsLive(v: Views, n: NodeId, a: SockAddr)
    requires TreesOk(v)
    ensures (a, n) in InOrder(v.byAddr) <==> Live(v, Link(n, a))
  {
    var s := InOrder(v.byAddr);
    assert Live(v, Link(n, a)) <==> Link(n, a) in AddrLinks(s);
    if (a, n) in s {
      var i :| 0 <= i < |s| && s[i] == (a, n);
      assert AddrLinks(s)[i] == Link(n, a);
    }
  }

  /** A shutdown finds its address exactly if some setup registered it and no shutdown took
      that registration out again. */
  lemma AddressFoundIff(run: seq<Views>, steps: seq<Step>, i: nat)
    requires IsRun(run, steps) && i < |run| && Enabled(run[i], RemoveAddr)
    ensures var a := run[i].down.a;
            Find(run[i].byAddr, a, CmpSockAddr).Some? <==> exists n :: Live(run[i], Link(n, a))
  {
    RunKeepsInv(run, steps, i);
    var v, a := run[i], run[i].down.a;
    if n :| Live(v, Link(n, a)) {
      FindIsLive(v, n, a);
    }
    if Find(v.byAddr, a, CmpSockAddr).Some? {
      FindIsLive(v, Find(v.byAddr, a, CmpSockAddr).value, a);
    }
  }

  /** The asserts of the removal hold whatever shape the rotations gave the trees. */
  ghost predicate AlwaysRemovable(v: Views, a: SockAddr) {
    forall t, u :: Enabled(v, Rebalance(t, u)) ==> Removable(t, u, a)
  }

  /** Every node that has a live link to the address has none to another. */
  ghost predicate NoOtherAddress(v: Views, a: SockAddr) {
    forall n, b :: Live(v, Link(n, a)) && Live(v, Link(n, b)) ==> b == a
  }

  /** A shutdown takes the same entry out of both trees, in whatever shape they are, exactly
      if its address is registered and no node registered there is registered elsewhere;
      otherwise there are trees of the same entries on which it fails. */
  lemma RemovalSurvivesIff(run: seq<Views>, steps: seq<Step>, i: nat)
    requires IsRun(run, steps) && i < |run| && Enabled(run[i], RemoveAddr)
    ensures var v, a := run[i], run[i].down.a;
            AlwaysRemovable(v, a) <==> (exists n :: Live(v, Link(n, a))) && NoOtherAddress(v, a)
  {
    RunKeepsInv(run, steps, i);
    AddressFoundIff(run, steps, i);
    var v, a := run[i], run[i].down.a;
    if AlwaysRemovable(v, a) {
      assert Enabled(v, Rebalance(v.byNode, v.byAddr));
      forall n, b | Live(v, Link(n, a)) && Live(v, Link(n, b)) ensures b == a {
        OtherAddressFails(v, n, a, b);
      }
    }
    if (exists n :: Live(v, Link(n, a))) && NoOtherAddress(v, a) {
      forall t, u | Enabled(v, Rebalance(t, u)) ensures Removable(t, u, a) {
        ShapeIsRemovable(v, t, u, a);
      }
    }
  }

  lemma ShapeIsRemovable(v: Views, t: Tree<NodeId, SockAddr>, u: Tree<SockAddr, NodeId>, a: SockAddr)
    requires TreesOk(v) && Enabled(v, Rebalance(t, u))
    requires (exists n :: Live(v, Link(n, a))) && NoOtherAddress(v, a)
    ensures Removable(t, u, a)
  {
    var w := v.(byNode := t, byAddr := u);
    var n :| Live(v, Link(n, a));
    assert Live(w, Link(n, a));
    FindIsLive(w, n, a);
    var m := Find(u, a, CmpSockAddr).value;
    assert Live(v, Link(m, a));
    FindIsLive(w, m, a);
    assert Live(v, Link(m, Find(t, m, CmpNode).value));
  }

  lemma OtherAddressFails(v: Views, n: NodeId, a: SockAddr, b: SockAddr)
    requires TreesOk(v) && Live(v, Link(n, a)) && Live(v, Link(n, b)) && AlwaysRemovable(v, a)
    ensures b == a
  {
    FindIsLive(v, n, a);
    FindIsLive(v, n, b);
    var s, r := InOrder(v.byNode), InOrder(v.byAddr);
    var i :| 0 <= i < |s| && s[i] == (n, b);
    var j :| 0 <= j < |r| && r[j] == (a, n);
    AddressComparatorsAreTotalOrders();
    var t := AnyAtRoot(s, i, CmpNode);
    var u := AnyAtRoot(r, j, CmpSockAddr);
    assert Enabled(v, Rebalance(t, u));
  }

  // ------------------------------------------------------------ runs that fail

  lemma Extended(run: seq<Views>, steps: seq<Step>, st: Step) returns (longer: seq<Views>, more: seq<Step>)
    requires IsRun(run, steps) && Enabled(run[|steps|], st) && AssertHolds(run[|steps|], st)
    ensures IsRun(longer, more) && more == steps + [st] && longer[|more|] == Apply(run[|steps|], st)
  {
    longer, more := run + [Apply(run[|steps|], st)], steps + [st];
    forall i: nat | i < |more| ensures Follows(longer, more, i) {
      if i < |steps| {
        assert Follows(run, steps, i);
      }
    }
  }

  /** The node has registered an address. */
  function Addressed(l: Link): Views {
    START.(byNode := Node(Leaf, l.node, l.addr, Leaf), byAddr := Node(Leaf, l.addr, l.node, Leaf),
           registered := multiset{l}, addressed := multiset{l.node})
  }

  /** The node has registered an address and told the iApp. */
  function Told(l: Link): Views {
    Addressed(l).(addressed := multiset{}, reg := {l.node}, known := multiset{l.node}, told := multiset{l.node})
  }

  lemma RegistersAddr(l: Link) returns (run: seq<Views>, steps: seq<Step>)
    ensures IsRun(run, steps) && steps == [Arrive(l), RegisterAddr(l)] && run[2] == Addressed(l)
  {
    run, steps := [START], [];
    run, steps := Extended(run, steps, Arrive(l));
    run, steps := Extended(run, steps, RegisterAddr(l));
  }

  lemma ToldIApp(l: Link) returns (run: seq<Views>, steps: seq<Step>)
    ensures IsRun(run, steps) && steps == [Arrive(l), RegisterAddr(l), TellIApp(l.node)] && run[3] == Told(l)
  {
    run, steps := RegistersAddr(l);
    run, steps := Extended(run, steps, TellIApp(l.node));
  }

  /** After a setup, for any node and address, every view lists the node, once. */
  lemma NodeComes(l: Link) returns (run: seq<Views>, steps: seq<Step>)
    ensures IsRun(run, steps) && steps == [Arrive(l), RegisterAddr(l), TellIApp(l.node), Append(l.node)]
    ensures var v := run[4];
            && v == Told(l).(known := multiset{}, conn := [l.node], appended := multiset{l.node})
            && InOrder(v.byNode) == [(l.node, l.addr)] && InOrder(v.byAddr) == [(l.addr, l.node)]
            && v.conn == [l.node] && v.reg == {l.node} && Idle(v, l.node)
  {
    run, steps := ToldIApp(l);
    run, steps := Extended(run, steps, Append(l.node));
  }

  lemma NodeIsRemoved(l: Link) returns (run: seq<Views>, steps: seq<Step>)
    ensures IsRun(run, steps) && |steps| == 6
    ensures steps == [Arrive(l), RegisterAddr(l), TellIApp(l.node), Append(l.node), Notify(l.addr), RemoveAddr]
    ensures var v := run[6];
            && v.byNode == Leaf && v.byAddr == Leaf && v.conn == [l.node] && v.reg == {l.node}
            && v.down == Unaddressed(l.node) && v.addressed == multiset{} && v.known == multiset{}
  {
    run, steps := NodeComes(l);
    run, steps := Extended(run, steps, Notify(l.addr));
    AddressComparatorsAreTotalOrders();
    run, steps := Extended(run, steps, RemoveAddr);
  }

  /** And after the shutdown that follows none does. */
  lemma NodeGoes(l: Link) returns (run: seq<Views>, steps: seq<Step>)
    ensures IsRun(run, steps)
    ensures steps == [Arrive(l), RegisterAddr(l), TellIApp(l.node), Append(l.node),
                      Notify(l.addr), RemoveAddr, Erase, Forget]
    ensures var v := run[8];
            v.byNode == Leaf && v.byAddr == Leaf && v.conn == [] && v.reg == {} && Idle(v, l.node)
  {
    run, steps := NodeIsRemoved(l);
    run, steps := Extended(run, steps, Erase);
    run, steps := Extended(run, steps, Forget);
  }

  /** The agent resends its setup request although the first was handled. */
  lemma ResentSetupFails(l: Link) returns (run: seq<Views>, steps: seq<Step>)
    ensures IsRun(run, steps) && Enabled(run[|steps|], TellIApp(l.node))
    ensures !AssertHolds(run[|steps|], TellIApp(l.node))
  {
    run, steps := ToldIApp(l);
    run, steps := Extended(run, steps, Append(l.node));
    run, steps := Extended(run, steps, Arrive(l));
    run, steps := Extended(run, steps, RegisterAddr(l));
  }

  lemma EarlyRemoval(l: Link) returns (run: seq<Views>, steps: seq<Step>)
    ensures IsRun(run, steps) && |steps| == 5 && steps[3..] == [Notify(l.addr), RemoveAddr]
    ensures run[|steps|]
            == Told(l).(byNode := Leaf, byAddr := Leaf, removed := multiset{l}, down := Unaddressed(l.node))
  {
    run, steps := ToldIApp(l);
    run, steps := Extended(run, steps, Notify(l.addr));
    AddressComparatorsAreTotalOrders();
    run, steps := Extended(run, steps, RemoveAddr);
  }

  /** The peer shuts down while its setup task is still under way. */
  lemma EarlyShutdownFails(l: Link) returns (run: seq<Views>, steps: seq<Step>)
    ensures IsRun(run, steps) && Enabled(run[|steps|], Erase) && !AssertHolds(run[|steps|], Erase)
  {
    run, steps := EarlyRemoval(l);
  }

  /** The same shutdown is survived if the setup task gets to its end in between. */
  lemma EarlyShutdownMaySucceed(l: Link) returns (run: seq<Views>, steps: seq<Step>)
    ensures IsRun(run, steps) && Enabled(run[|steps|], Erase) && AssertHolds(run[|steps|], Erase)
    ensures |steps| == 6 && steps[3..] == [Notify(l.addr), RemoveAddr, Append(l.node)]
  {
    run, steps := EarlyRemoval(l);
    run, steps := Extended(run, steps, Append(l.node));
  }

  /** The node has registered two addresses, the second below the first in the tree. */
  function Twice(n: NodeId, a: SockAddr, b: SockAddr): Views {
    START.(byNode := Node(Leaf, n, a, Node(Leaf, n, b, Leaf)),
           byAddr := Insert(Node(Leaf, a, n, Leaf), b, n, CmpSockAddr),
           addressed := multiset{n, n}, registered := multiset{Link(n, a), Link(n, b)})
  }

  lemma AddressedTwice(n: NodeId, a: SockAddr, b: SockAddr) returns (run: seq<Views>, steps: seq<Step>)
    ensures IsRun(run, steps) && run[|steps|] == Twice(n, a, b)
    ensures steps == [Arrive(Link(n, a)), RegisterAddr(Link(n, a)), Arrive(Link(n, b)), RegisterAddr(Link(n, b))]
  {
    run, steps := RegistersAddr(Link(n, a));
    run, steps := Extended(run, steps, Arrive(Link(n, b)));
    RegisteredTwice(n, a, b);
    run, steps := Extended(run, steps, RegisterAddr(Link(n, b)));
  }

  lemma RegisteredTwice(n: NodeId, a: SockAddr, b: SockAddr)
    ensures var v := Addressed(Link(n, a)).(arrived := multiset{Link(n, b)});
            Enabled(v, RegisterAddr(Link(n, b))) && Apply(v, RegisterAddr(Link(n, b))) == Twice(n, a, b)
  {
    InsertedBelow(n, a, b);
    assert multiset{n} + multiset{n} == multiset{n, n};
    assert multiset{Link(n, a)} + multiset{Link(n, b)} == multiset{Link(n, a), Link(n, b)};
  }

  lemma InsertedBelow(n: NodeId, a: SockAddr, b: SockAddr)
    ensures Insert(Node(Leaf, n, a, Leaf), n, b, CmpNode) == Node(Leaf, n, a, Node(Leaf, n, b, Leaf))
  {
    assert CmpNode(n, n) == 0;
    assert Insert(Leaf, n, b, CmpNode) == Node(Leaf, n, b, Leaf);
  }

  lemma FindsTheFirst(n: NodeId, a: SockAddr, b: SockAddr)
    requires a != b
    ensures var v := Twice(n, a, b);
            && Find(v.byNode, n, CmpNode) == Some(a)
            && Find(v.byAddr, a, CmpSockAddr) == Some(n) && Find(v.byAddr, b, CmpSockAddr) == Some(n)
  {
    AddressComparatorsAreTotalOrders();
    var t, below := Node(Leaf, a, n, Leaf), Node(Leaf, b, n, Leaf);
    assert CmpSockAddr(b, a) == 1 || CmpSockAddr(b, a) == -1;
    assert Find(below, b, CmpSockAddr) == Some(n);
    assert Insert(t, b, n, CmpSockAddr)
           == if CmpSockAddr(b, a) == 1 then t.(left := below) else t.(right := below);
  }

  /** A node sets up from two addresses, which takes no rotation of the tree of nodes. If it
      shuts down the second, the search for the node stops at the first: the address does
      not match. The shutdown of the first passes. */
  lemma SecondAddressFails(n: NodeId, a: SockAddr, b: SockAddr) returns (run: seq<Views>, steps: seq<Step>)
    requires a != b
    ensures IsRun(run, steps) && RemoveAddr !in steps && forall t, u :: Rebalance(t, u) !in steps
    ensures Enabled(run[|steps|], Notify(a)) && AssertHolds(Apply(run[|steps|], Notify(a)), RemoveAddr)
    ensures Enabled(run[|steps|], Notify(b)) && !AssertHolds(Apply(run[|steps|], Notify(b)), RemoveAddr)
  {
    run, steps := AddressedTwice(n, a, b);
    FindsTheFirst(n, a, b);
  }

  /** A third node further right, and the rotation that the red-black tree makes then. */
  lemma RotatesLeft(n: NodeId, m: NodeId, a: SockAddr, b: SockAddr, c: SockAddr)
    requires CmpNode(m, n) == -1
    ensures var t := Insert(Twice(n, a, b).byNode, m, c, CmpNode);
            t.Node? && t.right.Node? && Find(LeftRotate(t), n, CmpNode) == Some(b)
  {
    assert CmpNode(n, n) == 0;
    var below := Node(Leaf, n, b, Leaf);
    assert Insert(below, m, c, CmpNode) == below.(right := Node(Leaf, m, c, Leaf));
    assert Insert(Twice(n, a, b).byNode, m, c, CmpNode)
           == Twice(n, a, b).byNode.(right := Insert(below, m, c, CmpNode));
  }

  lemma RotatedAfterThree(n: NodeId, m: NodeId, a: SockAddr, b: SockAddr, c: SockAddr)
    returns (run: seq<Views>, steps: seq<Step>)
    requires CmpNode(m, n) == -1
    ensures IsRun(run, steps) && run[|steps|].down.NoShutdown? && Find(run[|steps|].byNode, n, CmpNode) == Some(b)
    ensures run[|steps|].registered == multiset{Link(n, a), Link(n, b), Link(m, c)}
    ensures run[|steps|].removed == multiset{}
  {
    run, steps := AddressedTwice(n, a, b);
    run, steps := Extended(run, steps, Arrive(Link(m, c)));
    run, steps := Extended(run, steps, RegisterAddr(Link(m, c)));
    RotatesLeft(n, m, a, b, c);
    var v := run[|steps|];
    RotationsKeepOrder(v.byNode);
    run, steps := Extended(run, steps, Rebalance(LeftRotate(v.byNode), v.byAddr));
  }

  /** After the rotation the search stops at the second address: the shutdown of the first
      fails, and that of the second passes. */
  lemma FirstAddressFails(n: NodeId, m: NodeId, a: SockAddr, b: SockAddr, c: SockAddr)
    returns (run: seq<Views>, steps: seq<Step>)
    requires a != b && c != a && c != b && CmpNode(m, n) == -1
    ensures IsRun(run, steps)
    ensures Enabled(run[|steps|], Notify(a)) && !AssertHolds(Apply(run[|steps|], Notify(a)), RemoveAddr)
    ensures Enabled(run[|steps|], Notify(b)) && AssertHolds(Apply(run[|steps|], Notify(b)), RemoveAddr)
  {
    run, steps := RotatedAfterThree(n, m, a, b, c);
    RunKeepsInv(run, steps, |steps|);
    OnlyNode(run[|steps|], n, a, b, m, c);
    OnlyNode(run[|steps|], n, b, a, m, c);
  }

  lemma OnlyNode(v: Views, n: NodeId, a: SockAddr, b: SockAddr, m: NodeId, c: SockAddr)
    requires TreesOk(v) && v.removed == multiset{} && a != b && a != c
    requires v.registered == multiset{Link(n, a), Link(n, b), Link(m, c)}
    ensures Find(v.byAddr, a, CmpSockAddr) == Some(n)
  {
    assert Live(v, Link(n, a));
    FindIsLive(v, n, a);
    var x := Find(v.byAddr, a, CmpSockAddr).value;
    assert Live(v, Link(x, a));
  }
}
