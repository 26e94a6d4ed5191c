// Identifiers that travel through the system, and the comparators that order
// them inside the associative containers.
module Ids {

  datatype Option<+T> = None | Some(value: T)

  /** RIC request identifier as carried by every E2AP functional procedure. */
  datatype RicGenId = RicGenId(reqId: nat, instId: nat, ranFuncId: nat)

  /** The key of the iApp's translation table: an xApp and the identifier it chose. */
  datatype XappRicId = XappRicId(ricId: RicGenId, xappId: nat)

  /** ngran: 3..5, 9, 10 are CU types, 6 and 7 are DU types; only those carry a CU/DU id. */
  datatype GlobalNodeId = GlobalNodeId(ngran: nat, mcc: nat, mnc: nat, mncDigits: nat,
                                       nbId: nat, unused: nat, cuDuId: Option<nat>)

  predicate Disaggregated(ngran: nat) {
    ngran in {3, 4, 5, 9, 10} || ngran in {6, 7}
  }

  predicate WellFormed(n: GlobalNodeId) {
    n.cuDuId.Some? == Disaggregated(n.ngran)
  }

  type NodeId = n: GlobalNodeId | WellFormed(n) witness GlobalNodeId(2, 0, 0, 0, 0, 0, None)

  /** An SCTP peer address, reduced to the fields the comparator looks at. */
  datatype SockAddr = SockAddr(port: nat, ip: nat, family: nat)

  /** Pending-event kinds, in the declaration order of the enumeration. */
  datatype EventKind =
    | SetupRequestPending | ControlRequestAgentPending
    | SubscriptionPending | SubscriptionDeletePending | ControlPending
    | E42SetupPending | E42SubscriptionPending | RicSubscriptionDeletePending
    | E42SubscriptionDeletePending | E42ControlPending

  function Ordinal(k: EventKind): nat {
    match k
    case SetupRequestPending => 0
    case ControlRequestAgentPending => 1
    case SubscriptionPending => 2
    case SubscriptionDeletePending => 3
    case ControlPending => 4
    case E42SetupPending => 5
    case E42SubscriptionPending => 6
    case RicSubscriptionDeletePending => 7
    case E42SubscriptionDeletePending => 8
    case E42ControlPending => 9
  }

  datatype PendingRic = PendingRic(kind: EventKind, id: RicGenId)

  // ---------------------------------------------------------------- comparators
  // The trees go left on 1, right on -1 and stop on 0, so "smaller sorts as 1"
  // is as good an order as the usual one.

  function CmpDescending(a: int, b: int): int {
    if a < b then 1 else if a > b then -1 else 0
  }

  function CmpAscending(a: int, b: int): int {
    if a < b then -1 else if a > b then 1 else 0
  }

  function CmpRicGenId(a: RicGenId, b: RicGenId): int {
    if a.ranFuncId < b.ranFuncId then 1 else if a.ranFuncId > b.ranFuncId then -1
    else if a.instId < b.instId then 1 else if a.instId > b.instId then -1
    else if a.reqId < b.reqId then 1 else if a.reqId > b.reqId then -1
    else 0
  }

  function CmpXappRicId(a: XappRicId, b: XappRicId): int {
    if a.xappId < b.xappId then 1 else if a.xappId > b.xappId then -1
    else CmpRicGenId(a.ricId, b.ricId)
  }

  function CmpPendingRic(a: PendingRic, b: PendingRic): int {
    var c := CmpDescending(Ordinal(a.kind), Ordinal(b.kind));
    if c != 0 then c else CmpRicGenId(a.id, b.id)
  }

  function CmpSockAddr(a: SockAddr, b: SockAddr): int {
    if a.port < b.port then 1 else if a.port > b.port then -1
    else if a.ip < b.ip then 1 else if a.ip > b.ip then -1
    else if a.family < b.family then 1 else if a.family > b.family then -1
    else 0
  }

  function CmpPlmn(a: NodeId, b: NodeId): int {
    if a.mcc < b.mcc then -1 else if a.mcc > b.mcc then 1
    else if a.mnc < b.mnc then -1 else if a.mnc > b.mnc then 1
    else CmpAscending(a.mncDigits, b.mncDigits)
  }

  function CmpNode(a: NodeId, b: NodeId): int {
    if a.ngran < b.ngran then -1 else if a.ngran > b.ngran then 1
    else if CmpPlmn(a, b) != 0 then CmpPlmn(a, b)
    else if a.nbId < b.nbId then -1 else if a.nbId > b.nbId then 1
    else if a.unused < b.unused then 1 else if a.unused > b.unused then -1
    else if Disaggregated(a.ngran) then CmpAscending(a.cuDuId.value, b.cuDuId.value)
    else 0
  }

  /** What a search tree needs of a comparator, plus agreement with equality, so that
      looking a key up by order and scanning for it by equality find the same entry. */
  ghost predicate TotalOrder<T(!new)>(cmp: (T, T) -> int) {
    && (forall a, b :: cmp(a, b) in {-1, 0, 1})
    && (forall a, b :: cmp(a, b) == 0 <==> a == b)
    && (forall a, b :: cmp(a, b) == -cmp(b, a))
    && (forall a, b, c :: cmp(a, b) == 1 && cmp(b, c) == 1 ==> cmp(a, c) == 1)
  }

  lemma RequestComparatorsAreTotalOrders()
    ensures TotalOrder(CmpRicGenId) && TotalOrder(CmpXappRicId) && TotalOrder(CmpPendingRic)
  {
  }

  lemma AddressComparatorsAreTotalOrders()
    ensures TotalOrder(CmpSockAddr) && TotalOrder(CmpNode)
  {
  }

  // ---------------------------------------------------------------- field by field

  /** The lists differ, and in the first place where they do the first one has the smaller
      number. */
  predicate LexLess(a: seq<int>, b: seq<int>)
    requires |a| == |b|
  {
    a != [] && (a[0] < b[0] || (a[0] == b[0] && LexLess(a[1..], b[1..])))
  }

  lemma FirstField(x: int, s: seq<int>, y: int, t: seq<int>)
    requires |s| == |t|
    ensures LexLess([x] + s, [y] + t) <==> x < y || (x == y && LexLess(s, t))
  {
    assert ([x] + s)[1..] == s && ([y] + t)[1..] == t;
  }

  function RequestFields(id: RicGenId): seq<int> {
    [id.ranFuncId] + ([id.instId] + ([id.reqId] + []))
  }

  function AddressFields(a: SockAddr): seq<int> {
    [a.port] + ([a.ip] + ([a.family] + []))
  }

  function CuDuId(n: NodeId): nat {
    if n.cuDuId.Some? then n.cuDuId.value else 0
  }

  /** The more unused bits, the smaller. */
  function NbFields(n: NodeId): seq<int> {
    [n.nbId] + ([0 - n.unused] + ([CuDuId(n)] + []))
  }

  function NodeFields(n: NodeId): seq<int> {
    [n.ngran] + ([n.mcc] + ([n.mnc] + ([n.mncDigits] + NbFields(n))))
  }

  lemma RequestOrder(a: RicGenId, b: RicGenId)
    ensures CmpRicGenId(a, b) == 1 <==> LexLess(RequestFields(a), RequestFields(b))
  {
    FirstField(a.ranFuncId, [a.instId] + ([a.reqId] + []), b.ranFuncId, [b.instId] + ([b.reqId] + []));
    FirstField(a.instId, [a.reqId] + [], b.instId, [b.reqId] + []);
    FirstField(a.reqId, [], b.reqId, []);
  }

  /** Table keys are ordered by xApp, RAN function, instance and request, pending events by
      kind and then like requests; the comparators say 1 for smaller. */
  lemma KeysAreOrderedByField(x: XappRicId, y: XappRicId, e: PendingRic, f: PendingRic)
    ensures CmpXappRicId(x, y) == 1
            <==> LexLess([x.xappId] + RequestFields(x.ricId), [y.xappId] + RequestFields(y.ricId))
    ensures CmpPendingRic(e, f) == 1
            <==> LexLess([Ordinal(e.kind)] + RequestFields(e.id), [Ordinal(f.kind)] + RequestFields(f.id))
  {
    FirstField(x.xappId, RequestFields(x.ricId), y.xappId, RequestFields(y.ricId));
    RequestOrder(x.ricId, y.ricId);
    FirstField(Ordinal(e.kind), RequestFields(e.id), Ordinal(f.kind), RequestFields(f.id));
    RequestOrder(e.id, f.id);
  }

  /** Peer addresses are ordered by port, address and family. */
  lemma AddressesAreOrderedByField(a: SockAddr, b: SockAddr)
    ensures CmpSockAddr(a, b) == 1 <==> LexLess(AddressFields(a), AddressFields(b))
  {
    FirstField(a.port, [a.ip] + ([a.family] + []), b.port, [b.ip] + ([b.family] + []));
    FirstField(a.ip, [a.family] + [], b.ip, [b.family] + []);
    FirstField(a.family, [], b.family, []);
  }

  lemma NbOrder(m: NodeId, n: NodeId)
    ensures LexLess(NbFields(m), NbFields(n))
            <==> m.nbId < n.nbId || (m.nbId == n.nbId && (m.unused > n.unused
                 || (m.unused == n.unused && CuDuId(m) < CuDuId(n))))
  {
    var a, b := [CuDuId(m)] + [], [CuDuId(n)] + [];
    FirstField(m.nbId, [0 - m.unused] + a, n.nbId, [0 - n.unused] + b);
    FirstField(0 - m.unused, a, 0 - n.unused, b);
    FirstField(CuDuId(m), [], CuDuId(n), []);
  }

  /** Node ids are ordered by RAN type, country, network, its digits, identifier, unused bits
      and CU or DU id; this comparator says -1 for smaller. */
  lemma NodesAreOrderedByField(m: NodeId, n: NodeId)
    ensures CmpNode(m, n) == -1 <==> LexLess(NodeFields(m), NodeFields(n))
  {
    var a, b := [m.mncDigits] + NbFields(m), [n.mncDigits] + NbFields(n);
    FirstField(m.ngran, [m.mcc] + ([m.mnc] + a), n.ngran, [n.mcc] + ([n.mnc] + b));
    FirstField(m.mcc, [m.mnc] + a, n.mcc, [n.mnc] + b);
    FirstField(m.mnc, a, n.mnc, b);
    FirstField(m.mncDigits, NbFields(m), n.mncDigits, NbFields(n));
    NbOrder(m, n);
  }
}
