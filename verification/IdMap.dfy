// The iApp's translation table between RIC-wide request ids and the pair (xApp,
// request id the xApp chose): src/ric/iApp/map_ric_id.c.
module IdMap {
  import opened Ids
  import opened Procedures

  /** What a RIC-wide request id stands for. */
  datatype Origin = Origin(node: NodeId, x: XappRicId)

  /** What an xApp's request was translated to. */
  datatype Target = Target(node: NodeId, reqId: nat)

  /** The two search trees of the bi-map. */
  datatype Table = Table(left: map<nat, Origin>, right: map<XappRicId, Target>)

  const EMPTY_TABLE := Table(map[], map[])

  function Added(t: Table, node: NodeId, reqId: nat, x: XappRicId): Table {
    Table(t.left[reqId := Origin(node, x)], t.right[x := Target(node, reqId)])
  }

  /** The two trees are inverse finite maps. */
  ghost predicate Inverse(t: Table) {
    && (forall r :: r in t.left ==> t.left[r].x in t.right && t.right[t.left[r].x] == Target(t.left[r].node, r))
    && (forall x :: x in t.right ==>
          t.right[x].reqId in t.left && t.left[t.right[x].reqId] == Origin(t.right[x].node, x))
  }

  lemma AddedIsInverse(t: Table, node: NodeId, reqId: nat, x: XappRicId)
    requires Inverse(t) && reqId !in t.left && x !in t.right
    ensures Inverse(Added(t, node, reqId, x))
  {
  }

  function HandleOf(x: XappRicId): Handle {
    Handle(x.xappId, x.ricId.reqId)
  }

  function IdFor(h: Handle, issue: Issue): XappRicId {
    XappRicId(RicGenId(h.key, 0, issue.ranFunc), h.xapp)
  }

  class MapRicId {
    var left: map<nat, Origin>
    var right: map<XappRicId, Target>

    ghost function Model(): Table
      reads this
    {
      Table(left, right)
    }

    ghost predicate Valid()
      reads this
    {
      Inverse(Model())
    }

    constructor ()
      ensures Valid() && Model() == EMPTY_TABLE
    {
      left, right := map[], map[];
    }

    /** The write lock is held by the caller. The source asserts only that the RIC-wide
        id is new; that the xApp's own id is new as well is proved of every run
        (RelayTheorems.AssertsHold), so the tree never holds two entries for it. */
    method AddMapRicId(node: NodeId, reqId: nat, x: XappRicId)
      requires Valid()
      requires reqId !in left && x !in right
      modifies this
      ensures Valid() && Model() == Added(old(Model()), node, reqId, x)
    {
      AddedIsInverse(Model(), node, reqId, x);
      left := left[reqId := Origin(node, x)];
      right := right[x := Target(node, reqId)];
    }

    method FindXappMapRicId(reqId: nat) returns (x: XappRicId)
      requires Valid() && reqId > 0 && reqId in left
      ensures x in right && right[x] == Target(left[reqId].node, reqId)
      ensures forall y :: y in right && right[y].reqId == reqId ==> y == x
    {
      x := left[reqId].x;
    }

    method FindRicReqMapRicId(x: XappRicId) returns (t: Target)
      requires Valid() && x in right
      ensures t.reqId in left && left[t.reqId] == Origin(t.node, x)
      ensures forall r :: r in left && left[r].x == x ==> r == t.reqId
    {
      t := right[x];
    }

    /** Present in the source and never called by a handler. */
    method RmMapRicId(reqId: nat)
      requires Valid() && reqId in left
      modifies this
      ensures Valid()
      ensures left == old(left) - {reqId} && right == old(right) - {old(left)[reqId].x}
    {
      var x := left[reqId].x;
      left := left - {reqId};
      right := right - {x};
    }
  }
}
