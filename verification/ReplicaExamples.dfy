// Runs in which an xApp's copy of the node registry goes wrong, for any xApp and any node.
module ReplicaExamples {
  import opened Ids
  import opened RegE2Nodes
  import opened Replication
  import opened Replicas

  lemma Extended(run: seq<State>, steps: seq<Step>, st: Step) returns (longer: seq<State>, more: seq<Step>)
    requires IsRun(run, steps) && Enabled(run[|steps|], st)
    ensures IsRun(longer, more) && more == steps + [st] && longer[|more|] == Apply(run[|steps|], st)
  {
    longer, more := run + [Apply(run[|steps|], st)], steps + [st];
    forall i: nat | i < |more| ensures Follows(longer, more, i) {
      if i < |steps| {
        assert Follows(run, steps, i);
      }
    }
  }

  /** The node is connected and no xApp is there. */
  function Connected(m: NodeId, funcs: seq<RanFunction>): State {
    START.(log := [NO_NODES, NO_NODES[m := funcs]], conn := {m})
  }

  lemma Connects(m: NodeId, funcs: seq<RanFunction>) returns (run: seq<State>, steps: seq<Step>)
    ensures IsRun(run, steps) && run[|steps|] == Connected(m, funcs)
  {
    run, steps := [START], [];
    run, steps := Extended(run, steps, NodeUp(m, funcs));
    run, steps := Extended(run, steps, Append(m));
    run, steps := Extended(run, steps, Count(Setup));
    run, steps := Extended(run, steps, End(Setup));
  }

  // ------------------------------------------------------------ a late broadcast

  /** One xApp asked after a change, and its setup is handled up to the registration of its
      address. */
  function Joining(x: nat, n: NodeId, funcs: seq<RanFunction>): State {
    var reg := NO_NODES[n := funcs];
    START.(log := [NO_NODES, reg], nextId := 8, due := {n}, socks := map[7 := x], xapps := map[x := NEW_XAPP],
           pc := SockKnown(7, x, 1, reg), disturbed := {x})
  }

  lemma JoinsAfterChange(x: nat, n: NodeId, funcs: seq<RanFunction>) returns (run: seq<State>, steps: seq<Step>)
    ensures IsRun(run, steps) && run[|steps|] == Joining(x, n, funcs)
  {
    run, steps := [START], [];
    run, steps := Extended(run, steps, Ask(x));
    run, steps := Extended(run, steps, NodeUp(n, funcs));
    run, steps := Extended(run, steps, TakeSnapshot(x));
    run, steps := Extended(run, steps, RegisterSock);
  }

  lemma BroadcastIsLate(x: nat, n: NodeId, funcs: seq<RanFunction>) returns (run: seq<State>, steps: seq<Step>)
    ensures IsRun(run, steps)
    ensures run[|steps|]
            == Joining(x, n, funcs).(due := {}, conn := {n}, setup := Sending(1, 1, NO_NODES[n := funcs], 7))
  {
    run, steps := JoinsAfterChange(x, n, funcs);
    run, steps := Extended(run, steps, Append(n));
    run, steps := Extended(run, steps, Count(Setup));
    run, steps := Extended(run, steps, Snapshot(Setup));
  }

  /** The node was added before the setup, but its broadcast comes in the middle of it: the
      update overtakes the response, and the response's nodes are not new. No change was made
      during the setup. */
  lemma LateBroadcastFails(x: nat, n: NodeId, funcs: seq<RanFunction>) returns (run: seq<State>, steps: seq<Step>)
    ensures IsRun(run, steps) && x in run[|steps|].xapps && HasMessage(run[|steps|].xapps[x])
    ensures !AssertHolds(run[|steps|].xapps[x], NextMsg(run[|steps|].xapps[x]))
  {
    run, steps := BroadcastIsLate(x, n, funcs);
    run, steps := Extended(run, steps, SendNext(Setup));
    run, steps := Extended(run, steps, SendResponse);
    run, steps := Extended(run, steps, Receive(x));
    assert n in run[|steps|].xapps[x].nodes && n in NextMsg(run[|steps|].xapps[x]).nodes;
  }

  // ------------------------------------------------------------ a resent request

  /** The xApp asked, once or twice, and its first setup is in the iApp thread's hands. */
  function Asking(x: nat, again: bool): State {
    START.(nextId := 8, pc := Snapped(7, x, 0, NO_NODES), xapps := map[x := NEW_XAPP],
           asking := if again then multiset{x} else multiset{})
  }

  lemma Asks(x: nat, again: bool) returns (run: seq<State>, steps: seq<Step>)
    ensures IsRun(run, steps) && run[|steps|] == Asking(x, again)
  {
    run, steps := [START], [];
    run, steps := Extended(run, steps, Ask(x));
    if again {
      run, steps := Extended(run, steps, Ask(x));
    }
    run, steps := Extended(run, steps, TakeSnapshot(x));
    assert run[|steps|].asking == Asking(x, again).asking;
  }

  /** The xApp asks again on its timeout, gets a second id, and stops at the second response. */
  lemma ResentRequestFails(x: nat) returns (run: seq<State>, steps: seq<Step>)
    ensures IsRun(run, steps) && x in run[|steps|].xapps && HasMessage(run[|steps|].xapps[x])
    ensures !AssertHolds(run[|steps|].xapps[x], NextMsg(run[|steps|].xapps[x]))
    ensures run[|steps|].socks == map[7 := x, 8 := x]
  {
    run, steps := Asks(x, true);
    run, steps := Extended(run, steps, RegisterSock);
    run, steps := Extended(run, steps, SendResponse);
    run, steps := Extended(run, steps, Receive(x));
    run, steps := Extended(run, steps, TakeSnapshot(x));
    run, steps := Extended(run, steps, RegisterSock);
    run, steps := Extended(run, steps, SendResponse);
  }

  // ------------------------------------------------------------ a missed update

  /** Snapshot taken, registry changed, nobody told. */
  function Missed(x: nat, n: NodeId, funcs: seq<RanFunction>): State {
    Asking(x, false).(log := [NO_NODES, NO_NODES[n := funcs]], conn := {n}, disturbed := {x})
  }

  lemma Misses(x: nat, n: NodeId, funcs: seq<RanFunction>) returns (run: seq<State>, steps: seq<Step>)
    ensures IsRun(run, steps) && run[|steps|] == Missed(x, n, funcs)
  {
    run, steps := Asks(x, false);
    run, steps := Extended(run, steps, NodeUp(n, funcs));
    run, steps := Extended(run, steps, Append(n));
    run, steps := Extended(run, steps, Count(Setup));
    run, steps := Extended(run, steps, End(Setup));
  }

  /** The change comes between snapshot and registration and counts no xApp: in calm, with
      everything handled, the new xApp holds an outdated registry. */
  lemma MissedUpdate(x: nat, n: NodeId, funcs: seq<RanFunction>) returns (run: seq<State>, steps: seq<Step>)
    ensures IsRun(run, steps) && x in run[|steps|].xapps && !HasMessage(run[|steps|].xapps[x])
    ensures Calm(run[|steps|], x) && run[|steps|].log != []
    ensures run[|steps|].xapps[x].nodes != Current(run[|steps|])
  {
    run, steps := Misses(x, n, funcs);
    run, steps := Extended(run, steps, RegisterSock);
    run, steps := Extended(run, steps, SendResponse);
    run, steps := Extended(run, steps, Receive(x));
    assert n in Current(run[|steps|]);
  }

  // ------------------------------------------------------------ crossed broadcasts

  /** One node is connected, and an undisturbed xApp has its response. */
  function Settled(x: nat, m: NodeId, funcs: seq<RanFunction>): State {
    Connected(m, funcs).(nextId := 8, socks := map[7 := x], answered := multiset{x},
                         xapps := map[x := XApp([SetupResponse(1, NO_NODES[m := funcs])], 0, false, NO_NODES)])
  }

  lemma Settles(x: nat, m: NodeId, funcs: seq<RanFunction>) returns (run: seq<State>, steps: seq<Step>)
    ensures IsRun(run, steps) && run[|steps|] == Settled(x, m, funcs)
  {
    run, steps := Connects(m, funcs);
    run, steps := Extended(run, steps, Ask(x));
    run, steps := Extended(run, steps, TakeSnapshot(x));
    run, steps := Extended(run, steps, RegisterSock);
    run, steps := Extended(run, steps, SendResponse);
    assert NEW_XAPP.sent + [SetupResponse(1, NO_NODES[m := funcs])] == [SetupResponse(1, NO_NODES[m := funcs])];
  }

  /** A second node was added while the first one leaves, and its broadcast has its snapshot
      of both. */
  function Announcing(x: nat, m: NodeId, n: NodeId, funcs: seq<RanFunction>): State {
    var both := NO_NODES[m := funcs][n := funcs];
    Settled(x, m, funcs).(log := [NO_NODES, NO_NODES[m := funcs], both], conn := {n}, shutdown := Leaving(m),
                          setup := Sending(1, 2, both, 7))
  }

  lemma Leaves(x: nat, m: NodeId, n: NodeId, funcs: seq<RanFunction>) returns (run: seq<State>, steps: seq<Step>)
    requires m != n
    ensures IsRun(run, steps)
    ensures run[|steps|] == Announcing(x, m, n, funcs).(due := {n}, conn := {}, setup := Quiet)
  {
    run, steps := Settles(x, m, funcs);
    run, steps := Extended(run, steps, NodeUp(n, funcs));
    run, steps := Extended(run, steps, Erase(m));
  }

  lemma Announces(x: nat, m: NodeId, n: NodeId, funcs: seq<RanFunction>) returns (run: seq<State>, steps: seq<Step>)
    requires m != n
    ensures IsRun(run, steps) && run[|steps|] == Announcing(x, m, n, funcs)
  {
    run, steps := Leaves(x, m, n, funcs);
    run, steps := Extended(run, steps, Append(n));
    run, steps := Extended(run, steps, Count(Setup));
    run, steps := Extended(run, steps, Snapshot(Setup));
  }

  /** The first node is gone and the broadcast of that has its snapshot as well. */
  function Crossing(x: nat, m: NodeId, n: NodeId, funcs: seq<RanFunction>): State {
    var s, one := Announcing(x, m, n, funcs), NO_NODES[n := funcs];
    s.(log := s.log + [one], crossed := true, shutdown := Sending(1, 3, one, 7))
  }

  lemma Crosses(x: nat, m: NodeId, n: NodeId, funcs: seq<RanFunction>) returns (run: seq<State>, steps: seq<Step>)
    requires m != n
    ensures IsRun(run, steps) && run[|steps|] == Crossing(x, m, n, funcs)
  {
    run, steps := Announces(x, m, n, funcs);
    assert NO_NODES[m := funcs][n := funcs] - {m} == NO_NODES[n := funcs];
    run, steps := Extended(run, steps, NodeDown(m));
    run, steps := Extended(run, steps, Count(Shutdown));
    run, steps := Extended(run, steps, Snapshot(Shutdown));
  }

  /** What the xApp was sent when both broadcasts ended. */
  function SentInCrossing(m: NodeId, n: NodeId, funcs: seq<RanFunction>): seq<Msg> {
    [SetupResponse(1, NO_NODES[m := funcs]), Update(3, NO_NODES[n := funcs]),
     Update(2, NO_NODES[m := funcs][n := funcs])]
  }

  lemma BothEnd(x: nat, m: NodeId, n: NodeId, funcs: seq<RanFunction>) returns (run: seq<State>, steps: seq<Step>)
    requires m != n
    ensures IsRun(run, steps)
    ensures run[|steps|] == Crossing(x, m, n, funcs).(
      setup := Quiet, shutdown := Quiet, xapps := map[x := XApp(SentInCrossing(m, n, funcs), 0, false, NO_NODES)])
  {
    run, steps := Crosses(x, m, n, funcs);
    run, steps := Extended(run, steps, SendNext(Shutdown));
    run, steps := Extended(run, steps, SendNext(Setup));
    run, steps := Extended(run, steps, End(Shutdown));
    run, steps := Extended(run, steps, End(Setup));
    assert run[|steps|].xapps[x].sent == SentInCrossing(m, n, funcs);
  }

  /** The broadcast of a node that left overtakes that of a node that came: with everything
      sent and handled, an xApp that was answered once, first, and undisturbed got its
      updates out of order and holds an outdated registry. */
  lemma CrossedBroadcastsReorder(x: nat, m: NodeId, n: NodeId, funcs: seq<RanFunction>)
    returns (run: seq<State>, steps: seq<Step>)
    requires m != n
    ensures IsRun(run, steps) && !Busy(run[|steps|]) && run[|steps|].pc.Listening? && run[|steps|].log != []
    ensures x in run[|steps|].xapps && x !in run[|steps|].disturbed && run[|steps|].answered[x] == 1
    ensures var xapp := run[|steps|].xapps[x];
            && FirstIsResponse(xapp) && LastIsUpdate(xapp) && !HasMessage(xapp)
            && !Ascending(xapp.sent) && xapp.nodes != Current(run[|steps|])
  {
    run, steps := BothEnd(x, m, n, funcs);
    run, steps := Extended(run, steps, Receive(x));
    run, steps := Extended(run, steps, Receive(x));
    run, steps := Extended(run, steps, Receive(x));
    assert run[|steps|].xapps[x].sent == SentInCrossing(m, n, funcs);
    assert m in run[|steps|].xapps[x].nodes && m !in Current(run[|steps|]);
  }
}
