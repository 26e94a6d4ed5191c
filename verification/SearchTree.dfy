// The search trees behind the associative containers. They accept several entries with one
// key, and a search takes the first it meets from the root, so which entry is found depends
// on the shape that the rebalancing of the red-black tree gave the tree. Colours and the
// choice of rotations are left open: what is proved holds for every shape
// (src/util/alg_ds/ds/assoc_container/assoc_rb_tree.c).
module SearchTree {
  import opened Ids

  datatype Tree<K, V> = Leaf | Node(left: Tree<K, V>, key: K, value: V, right: Tree<K, V>)

  /** The entries from left to right. */
  function InOrder<K, V>(t: Tree<K, V>): seq<(K, V)> {
    if t.Leaf? then [] else InOrder(t.left) + [(t.key, t.value)] + InOrder(t.right)
  }

  /** No entry is smaller than one before it; a comparator says 1 for smaller. */
  ghost predicate SortedBy<K, V>(s: seq<(K, V)>, cmp: (K, K) -> int) {
    forall i, j :: 0 <= i < j < |s| ==> cmp(s[j].0, s[i].0) != 1
  }

  // ------------------------------------------------------------ operations

  function Find<K, V>(t: Tree<K, V>, k: K, cmp: (K, K) -> int): Option<V> {
    if t.Leaf? then None
    else if cmp(k, t.key) == 1 then Find(t.left, k, cmp)
    else if cmp(k, t.key) == -1 then Find(t.right, k, cmp)
    else Some(t.value)
  }

  /** The new entry before any rotation: a key that is there already goes to the right. */
  function Insert<K, V>(t: Tree<K, V>, k: K, v: V, cmp: (K, K) -> int): Tree<K, V> {
    if t.Leaf? then Node(Leaf, k, v, Leaf)
    else if cmp(k, t.key) == 1 then t.(left := Insert(t.left, k, v, cmp))
    else t.(right := Insert(t.right, k, v, cmp))
  }

  function Least<K, V>(t: Tree<K, V>): (K, V)
    requires t.Node?
  {
    if t.left.Leaf? then (t.key, t.value) else Least(t.left)
  }

  function WithoutLeast<K, V>(t: Tree<K, V>): Tree<K, V>
    requires t.Node?
  {
    if t.left.Leaf? then t.right else t.(left := WithoutLeast(t.left))
  }

  /** What takes the place of a node that is removed from above these two. */
  function Joined<K, V>(l: Tree<K, V>, r: Tree<K, V>): Tree<K, V> {
    if l.Leaf? then r else if r.Leaf? then l else Node(l, Least(r).0, Least(r).1, WithoutLeast(r))
  }

  /** The tree without the entry that Find finds, before any rotation. */
  function Extract<K, V>(t: Tree<K, V>, k: K, cmp: (K, K) -> int): Tree<K, V> {
    if t.Leaf? then t
    else if cmp(k, t.key) == 1 then t.(left := Extract(t.left, k, cmp))
    else if cmp(k, t.key) == -1 then t.(right := Extract(t.right, k, cmp))
    else Joined(t.left, t.right)
  }

  // ------------------------------------------------------------ rotations

  function LeftRotate<K, V>(t: Tree<K, V>): Tree<K, V>
    requires t.Node? && t.right.Node?
  {
    var y := t.right;
    y.(left := t.(right := y.left))
  }

  function RightRotate<K, V>(t: Tree<K, V>): Tree<K, V>
    requires t.Node? && t.left.Node?
  {
    var y := t.left;
    y.(right := t.(left := y.right))
  }

  /** Rotations undo each other and do not change the entries or their order. */
  lemma RotationsKeepOrder<K, V>(t: Tree<K, V>)
    requires t.Node? && t.right.Node?
    ensures InOrder(LeftRotate(t)) == InOrder(t) && RightRotate(LeftRotate(t)) == t
  {
    var a, x, y := InOrder(t.left), [(t.key, t.value)], [(t.right.key, t.right.value)];
    var b, c := InOrder(t.right.left), InOrder(t.right.right);
    assert (a + x + b) + y + c == a + x + (b + y + c);
  }

  // ------------------------------------------------------------ search

  lemma SortedParts<K, V>(t: Tree<K, V>, cmp: (K, K) -> int)
    requires t.Node? && SortedBy(InOrder(t), cmp)
    ensures SortedBy(InOrder(t.left), cmp) && SortedBy(InOrder(t.right), cmp)
    ensures forall e :: e in InOrder(t.left) ==> cmp(t.key, e.0) != 1
    ensures forall e :: e in InOrder(t.right) ==> cmp(e.0, t.key) != 1
  {
    var l, r := InOrder(t.left), InOrder(t.right);
    var s := InOrder(t);
    assert s[|l|] == (t.key, t.value);
    forall i | 0 <= i < |l| ensures s[i] == l[i] {
    }
    forall i | 0 <= i < |r| ensures s[|l| + 1 + i] == r[i] {
    }
  }

  /** A search finds an entry of the key exactly if there is one, whatever the shape. */
  lemma {:induction false} FindIffHeld<K(!new), V>(t: Tree<K, V>, k: K, cmp: (K, K) -> int)
    requires TotalOrder(cmp) && SortedBy(InOrder(t), cmp)
    ensures Find(t, k, cmp).Some? ==> (k, Find(t, k, cmp).value) in InOrder(t)
    ensures Find(t, k, cmp).None? ==> forall e :: e in InOrder(t) ==> e.0 != k
  {
    if t.Leaf? {
    } else {
      SortedParts(t, cmp);
      if cmp(k, t.key) == 1 {
        FindIffHeld(t.left, k, cmp);
      } else if cmp(k, t.key) == -1 {
        FindIffHeld(t.right, k, cmp);
      }
    }
  }

  // ------------------------------------------------------------ insertion

  /** The new entry goes behind all that are not greater and before all that are. */
  lemma {:induction false} InsertSplits<K(!new), V>(t: Tree<K, V>, k: K, v: V, cmp: (K, K) -> int)
    returns (a: seq<(K, V)>, b: seq<(K, V)>)
    requires TotalOrder(cmp) && SortedBy(InOrder(t), cmp)
    ensures InOrder(t) == a + b && InOrder(Insert(t, k, v, cmp)) == a + [(k, v)] + b
    ensures forall e :: e in a ==> cmp(k, e.0) != 1
    ensures forall e :: e in b ==> cmp(k, e.0) == 1
  {
    if t.Leaf? {
      a, b := [], [];
    } else {
      SortedParts(t, cmp);
      var l, x, r := InOrder(t.left), [(t.key, t.value)], InOrder(t.right);
      if cmp(k, t.key) == 1 {
        a, b := InsertSplits(t.left, k, v, cmp);
        RightOf(a, [(k, v)], b, x, r);
        AllGreater(x + r, k, t.key, cmp);
        b := b + x + r;
      } else {
        a, b := InsertSplits(t.right, k, v, cmp);
        LeftOf(l, x, a, [(k, v)], b);
        NoneGreater(l + x, k, t.key, cmp);
        a := l + x + a;
      }
    }
  }

  lemma RightOf<T>(a: seq<T>, e: seq<T>, b: seq<T>, x: seq<T>, r: seq<T>)
    ensures (a + e + b) + x + r == a + e + (b + x + r) && (a + b) + x + r == a + (b + x + r)
  {
  }

  lemma LeftOf<T>(l: seq<T>, x: seq<T>, a: seq<T>, e: seq<T>, b: seq<T>)
    ensures l + x + (a + e + b) == (l + x + a) + e + b && l + x + (a + b) == (l + x + a) + b
  {
  }

  lemma AllGreater<K(!new), V>(s: seq<(K, V)>, k: K, m: K, cmp: (K, K) -> int)
    requires TotalOrder(cmp) && cmp(k, m) == 1 && forall e :: e in s ==> cmp(e.0, m) != 1
    ensures forall e :: e in s ==> cmp(k, e.0) == 1
  {
  }

  lemma NoneGreater<K(!new), V>(s: seq<(K, V)>, k: K, m: K, cmp: (K, K) -> int)
    requires TotalOrder(cmp) && cmp(k, m) != 1 && forall e :: e in s ==> cmp(m, e.0) != 1
    ensures forall e :: e in s ==> cmp(k, e.0) != 1
  {
  }

  lemma InsertKeepsSorted<K(!new), V>(t: Tree<K, V>, k: K, v: V, cmp: (K, K) -> int)
    requires TotalOrder(cmp) && SortedBy(InOrder(t), cmp)
    ensures SortedBy(InOrder(Insert(t, k, v, cmp)), cmp)
  {
    var a, b := InsertSplits(t, k, v, cmp);
    var s: seq<(K, V)> := a + [(k, v)] + b;
    forall i, j | 0 <= i < j < |s| ensures cmp(s[j].0, s[i].0) != 1 {
      if i == |a| {
        assert s[j] in b;
      } else if j == |a| {
        assert s[i] in a;
      } else {
        assert s[i] == (a + b)[if i < |a| then i else i - 1] && s[j] == (a + b)[if j < |a| then j else j - 1];
      }
    }
  }

  // ------------------------------------------------------------ extraction

  lemma {:induction false} LeastSplits<K, V>(t: Tree<K, V>)
    requires t.Node?
    ensures InOrder(t) == [Least(t)] + InOrder(WithoutLeast(t))
  {
    if t.left.Leaf? {
      assert InOrder(t.left) == [];
    } else {
      LeastSplits(t.left);
    }
  }

  lemma JoinedOrder<K, V>(l: Tree<K, V>, r: Tree<K, V>)
    ensures InOrder(Joined(l, r)) == InOrder(l) + InOrder(r)
  {
    if l.Node? && r.Node? {
      LeastSplits(r);
    }
  }

  /** Just the entry that is found leaves, and the others keep their order. */
  lemma {:induction false} ExtractSplits<K(!new), V>(t: Tree<K, V>, k: K, cmp: (K, K) -> int)
    returns (a: seq<(K, V)>, b: seq<(K, V)>)
    requires TotalOrder(cmp) && Find(t, k, cmp).Some?
    ensures InOrder(t) == a + [(k, Find(t, k, cmp).value)] + b && InOrder(Extract(t, k, cmp)) == a + b
  {
    var l, x, r := InOrder(t.left), [(t.key, t.value)], InOrder(t.right);
    if cmp(k, t.key) == 1 {
      a, b := ExtractSplits(t.left, k, cmp);
      b := b + x + r;
    } else if cmp(k, t.key) == -1 {
      a, b := ExtractSplits(t.right, k, cmp);
      a := l + x + a;
    } else {
      JoinedOrder(t.left, t.right);
      a, b := l, r;
    }
  }

  lemma ExtractKeepsSorted<K(!new), V>(t: Tree<K, V>, k: K, cmp: (K, K) -> int)
    requires TotalOrder(cmp) && Find(t, k, cmp).Some? && SortedBy(InOrder(t), cmp)
    ensures SortedBy(InOrder(Extract(t, k, cmp)), cmp)
  {
    var a, b := ExtractSplits(t, k, cmp);
    var s := InOrder(t);
    var rest: seq<(K, V)> := a + b;
    forall i, j | 0 <= i < j < |rest| ensures cmp(rest[j].0, rest[i].0) != 1 {
      assert rest[i] == s[if i < |a| then i else i + 1] && rest[j] == s[if j < |a| then j else j + 1];
    }
  }

  // ------------------------------------------------------------ shapes

  function Spine<K, V>(s: seq<(K, V)>): Tree<K, V> {
    if s == [] then Leaf else Node(Leaf, s[0].0, s[0].1, Spine(s[1..]))
  }

  lemma {:induction false} SpineOrder<K, V>(s: seq<(K, V)>)
    ensures InOrder(Spine(s)) == s
  {
    if s == [] {
    } else {
      SpineOrder(s[1..]);
      assert s == [s[0]] + s[1..];
    }
  }

  /** Any entry may be at the root, and then it is the one of its key that is found. */
  lemma AnyAtRoot<K(!new), V>(s: seq<(K, V)>, i: nat, cmp: (K, K) -> int) returns (t: Tree<K, V>)
    requires TotalOrder(cmp) && i < |s|
    ensures InOrder(t) == s && Find(t, s[i].0, cmp) == Some(s[i].1)
  {
    t := Node(Spine(s[..i]), s[i].0, s[i].1, Spine(s[i + 1..]));
    SpineOrder(s[..i]);
    SpineOrder(s[i + 1..]);
    assert s == s[..i] + [s[i]] + s[i + 1..];
  }
}
