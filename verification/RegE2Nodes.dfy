// The registry of connected E2 nodes, its flat copy that travels in messages, and how an
// xApp rebuilds its own registry from that copy (src/lib/msg_hand/reg_e2_nodes.c,
// e2_node_arr.h; src/xApp/msg_handler_xapp.c).
module RegE2Nodes {
  import opened Ids

  datatype RanFunction = RanFunction(id: nat, revision: nat, definition: seq<int>)

  datatype Entry = Entry(node: NodeId, funcs: seq<RanFunction>)

  /** The flat copy; its length field has 8 bits. */
  datatype E2NodeArr = E2NodeArr(len: nat, n: seq<Entry>)

  const LEN_MODULUS := 256

  /** A tree keeps on the left what compares as 1. */
  predicate Before(a: NodeId, b: NodeId) {
    CmpNode(a, b) == 1
  }

  /** The nodes of the tree in order. */
  ghost predicate Sorted(s: seq<Entry>) {
    forall i, j :: 0 <= i < j < |s| ==> Before(s[i].node, s[j].node)
  }

  predicate Registered(s: seq<Entry>, id: NodeId) {
    exists i :: 0 <= i < |s| && s[i].node == id
  }

  /** No node is listed twice, in whatever order. */
  ghost predicate EachOnce(s: seq<Entry>) {
    forall i, j :: 0 <= i < j < |s| ==> s[i].node != s[j].node
  }

  /** Every node was registered with at least one RAN function. */
  ghost predicate AllWithFunctions(s: seq<Entry>) {
    forall e :: e in s ==> e.funcs != []
  }

  lemma BeforeIsStrictOrder(a: NodeId, b: NodeId, c: NodeId)
    ensures !Before(a, a) && (a != b ==> Before(a, b) != Before(b, a))
    ensures Before(a, b) && Before(b, c) ==> Before(a, c)
  {
  }

  /** In a sorted list a position is determined by its node: no node is listed twice. */
  lemma SortedIsInjective(s: seq<Entry>, i: nat, j: nat)
    requires Sorted(s) && i < |s| && j < |s| && s[i].node == s[j].node
    ensures i == j
  {
    BeforeIsStrictOrder(s[i].node, s[j].node, s[j].node);
  }

  lemma InsertedIsSorted(s: seq<Entry>, e: Entry, p: nat)
    requires Sorted(s) && p <= |s|
    requires forall i :: 0 <= i < p ==> Before(s[i].node, e.node)
    requires p < |s| ==> Before(e.node, s[p].node)
    ensures Sorted(s[..p] + [e] + s[p..])
  {
    forall i | p <= i < |s| ensures Before(e.node, s[i].node) {
      if p < i {
        BeforeIsStrictOrder(e.node, s[p].node, s[i].node);
      }
    }
  }

  /** Two trees with the same entries list them in the same order. */
  lemma {:induction false} SortedIsCanonical(s: seq<Entry>, t: seq<Entry>)
    requires Sorted(s) && Sorted(t)
    requires forall e :: e in s <==> e in t
    ensures s == t
  {
    assert t != [] ==> t[0] in t;
    if s == [] {
      assert t == [];
    } else {
      assert s[0] in s && s[0] in t;
      var j :| 0 <= j < |t| && t[j] == s[0];
      assert t[0] in s;
      var i :| 0 <= i < |s| && s[i] == t[0];
      BeforeIsStrictOrder(s[0].node, t[0].node, s[0].node);
      assert i == 0 && j == 0;
      forall e ensures e in s[1..] <==> e in t[1..] {
        TailHolds(s, e);
        TailHolds(t, e);
      }
      SortedIsCanonical(s[1..], t[1..]);
      assert s == [s[0]] + s[1..] && t == [t[0]] + t[1..];
    }
  }

  lemma TailHolds(s: seq<Entry>, e: Entry)
    requires Sorted(s) && s != []
    ensures e in s[1..] <==> e in s && e != s[0]
  {
    if e in s[1..] && e == s[0] {
      var i :| 1 <= i < |s| && s[i] == e;
      SortedIsInjective(s, 0, i);
    }
  }

  class RegE2Node {
    var entries: seq<Entry>

    ghost predicate Valid()
      reads this
    {
      Sorted(entries) && AllWithFunctions(entries)
    }

    constructor ()
      ensures Valid() && entries == []
    {
      entries := [];
    }

    /** Asserts that the node is new; the order finds its place. */
    method AddRegE2Node(id: NodeId, funcs: seq<RanFunction>)
      requires Valid() && funcs != [] && !Registered(entries, id)
      modifies this
      ensures Valid()
      ensures forall e :: e in entries <==> e in old(entries) || e == Entry(id, funcs)
      ensures (forall i :: 0 <= i < |old(entries)| ==> Before(old(entries)[i].node, id)) ==>
                entries == old(entries) + [Entry(id, funcs)]
    {
      var p := 0;
      while p < |entries| && CmpNode(id, entries[p].node) != 1
        invariant 0 <= p <= |entries| && entries == old(entries)
        invariant forall i :: 0 <= i < p ==> Before(entries[i].node, id)
      {
        BeforeIsStrictOrder(id, entries[p].node, id);
        p := p + 1;
      }
      if p < |entries| && forall i :: 0 <= i < |entries| ==> Before(entries[i].node, id) {
        BeforeIsStrictOrder(id, entries[p].node, id);
      }
      InsertedIsSorted(entries, Entry(id, funcs), p);
      entries := entries[..p] + [Entry(id, funcs)] + entries[p..];
    }

    /** Asserts that the node is there. */
    method RmRegE2Node(id: NodeId)
      requires Valid() && Registered(entries, id)
      modifies this
      ensures Valid() && !Registered(entries, id) && |entries| == |old(entries)| - 1
      ensures forall e :: e in entries <==> e in old(entries) && e.node != id
      ensures old(entries)[0].node == id ==> entries == old(entries)[1..]
    {
      var p := 0;
      while entries[p].node != id
        invariant 0 <= p < |entries| && entries == old(entries)
        invariant exists i :: p <= i < |entries| && entries[i].node == id
        decreases |entries| - p
      {
        p := p + 1;
      }
      ghost var was := entries;
      entries := entries[..p] + entries[p + 1..];
      forall e ensures e in entries <==> e in was && e.node != id {
        RemovedHolds(was, p, e);
      }
    }

    static lemma RemovedHolds(s: seq<Entry>, p: nat, e: Entry)
      requires Sorted(s) && p < |s|
      ensures e in s[..p] + s[p + 1..] <==> e in s && e.node != s[p].node
    {
      var rest := s[..p] + s[p + 1..];
      if e in rest {
        var i :| 0 <= i < |s| && i != p && s[i] == e;
        SortedIsInjective(s, i, if s[i].node == s[p].node then p else i);
      }
      if e in s && e.node != s[p].node {
        var i :| 0 <= i < |s| && s[i] == e;
        assert rest[if i < p then i else i - 1] == e;
      }
    }

    method FindRegE2Node(id: NodeId) returns (found: bool)
      ensures found <==> Registered(entries, id)
    {
      var p := 0;
      while p < |entries| && entries[p].node != id
        invariant 0 <= p <= |entries|
        invariant forall i :: 0 <= i < p ==> entries[i].node != id
      {
        p := p + 1;
      }
      found := p < |entries|;
    }

    /** generate_e2_node_arr: walks the tree in order and copies the function lists one
        by one. A registry of more nodes than the length field can count is written past
        the end of the array that was allocated for it. */
    method GenerateE2NodeArr() returns (arr: E2NodeArr)
      requires |entries| < 256
      ensures arr == E2NodeArr(|entries|, entries)
    {
      var len := |entries| % LEN_MODULUS;
      var n: seq<Entry> := [];
      var i := 0;
      while i < |entries|
        invariant 0 <= i <= |entries| && n == entries[..i]
      {
        var funcs: seq<RanFunction> := [];
        var j := 0;
        while j < |entries[i].funcs|
          invariant 0 <= j <= |entries[i].funcs| && funcs == entries[i].funcs[..j]
        {
          funcs := funcs + [entries[i].funcs[j]];
          j := j + 1;
        }
        assert funcs == entries[i].funcs;
        n := n + [Entry(entries[i].node, funcs)];
        i := i + 1;
      }
      arr := E2NodeArr(len, n);
    }

    /** The registry part of e2ap_handle_e42_setup_response_xapp: every node of the message
        is added, and asserted to be new. */
    method HandleSetupResponse(msg: E2NodeArr)
      requires Valid() && msg.len == |msg.n| && AllWithFunctions(msg.n) && EachOnce(msg.n)
      requires forall i :: 0 <= i < |msg.n| ==> !Registered(entries, msg.n[i].node)
      modifies this
      ensures Valid() && forall e :: e in entries <==> e in old(entries) || e in msg.n
      ensures old(entries) == [] && Sorted(msg.n) ==> entries == msg.n
    {
      var i := 0;
      while i < msg.len
        invariant 0 <= i <= msg.len && Valid()
        invariant forall e :: e in entries <==> e in old(entries) || e in msg.n[..i]
        invariant old(entries) == [] && Sorted(msg.n) ==> entries == msg.n[..i]
      {
        StillNew(old(entries), msg.n, i);
        assert msg.n[..i + 1] == msg.n[..i] + [msg.n[i]];
        AddRegE2Node(msg.n[i].node, msg.n[i].funcs);
        i := i + 1;
      }
      assert msg.n[..i] == msg.n;
    }

    lemma StillNew(was: seq<Entry>, n: seq<Entry>, i: nat)
      requires i < |n| && EachOnce(n) && !Registered(was, n[i].node)
      requires forall e :: e in entries <==> e in was || e in n[..i]
      ensures !Registered(entries, n[i].node)
    {
      forall k | 0 <= k < |entries| ensures entries[k].node != n[i].node {
        assert entries[k] in entries;
        if entries[k] in n[..i] {
          var j :| 0 <= j < i && n[j] == entries[k];
          assert n[j].node != n[i].node;
        }
      }
    }

    /** The registry part of e2ap_handle_e42_update_e2_node_xapp: remove every node, then
        add those of the message that are not there yet. */
    method HandleUpdate(msg: E2NodeArr)
      requires Valid() && |entries| < 256 && msg.len == |msg.n| && AllWithFunctions(msg.n)
      modifies this
      ensures Valid()
      ensures forall e :: e in entries ==> e in msg.n
      ensures forall i :: 0 <= i < |msg.n| ==> Registered(entries, msg.n[i].node)
      ensures Sorted(msg.n) ==> entries == msg.n
    {
      var cur := GenerateE2NodeArr();
      var i := 0;
      while i < cur.len
        invariant 0 <= i <= cur.len && Valid() && entries == cur.n[i..]
      {
        assert entries[0] == cur.n[i];
        RmRegE2Node(cur.n[i].node);
        i := i + 1;
      }
      assert entries == [];
      i := 0;
      while i < msg.len
        invariant 0 <= i <= msg.len && Valid()
        invariant forall e :: e in entries ==> e in msg.n
        invariant forall k :: 0 <= k < i ==> Registered(entries, msg.n[k].node)
        invariant Sorted(msg.n) ==> entries == msg.n[..i]
      {
        var found := FindRegE2Node(msg.n[i].node);
        if !found {
          AddOne(msg, i);
        } else {
          AlreadyThere(msg, i);
        }
        i := i + 1;
      }
    }

    method AddOne(msg: E2NodeArr, i: nat)
      requires Valid() && i < |msg.n| && !Registered(entries, msg.n[i].node) && AllWithFunctions(msg.n)
      requires forall e :: e in entries ==> e in msg.n
      requires forall k :: 0 <= k < i ==> Registered(entries, msg.n[k].node)
      requires Sorted(msg.n) ==> entries == msg.n[..i]
      modifies this
      ensures Valid()
      ensures forall e :: e in entries ==> e in msg.n
      ensures forall k :: 0 <= k <= i ==> Registered(entries, msg.n[k].node)
      ensures Sorted(msg.n) ==> entries == msg.n[..i + 1]
    {
      AddRegE2Node(msg.n[i].node, msg.n[i].funcs);
      forall k | 0 <= k <= i ensures Registered(entries, msg.n[k].node) {
        if k < i {
          var q :| 0 <= q < |old(entries)| && old(entries)[q].node == msg.n[k].node;
          assert old(entries)[q] in entries;
        } else {
          assert msg.n[i] in entries;
        }
      }
    }

    lemma AlreadyThere(msg: E2NodeArr, i: nat)
      requires i < |msg.n| && Registered(entries, msg.n[i].node)
      ensures Sorted(msg.n) ==> entries != msg.n[..i]
    {
      var k :| 0 <= k < |entries| && entries[k].node == msg.n[i].node;
      assert k < i ==> entries == msg.n[..i] ==> msg.n[k].node == msg.n[i].node;
    }
  }

  /** Registry to array to registry is the identity: node ids, function lists and their
      order all survive. */
  method Replicate(from: RegE2Node, to: RegE2Node)
    requires from != to && from.Valid() && to.Valid()
    requires |from.entries| < 256 && |to.entries| < 256
    modifies to
    ensures to.Valid() && to.entries == from.entries
  {
    var arr := from.GenerateE2NodeArr();
    to.HandleUpdate(arr);
  }
}
