// Where indications and answers end up, over whole runs.
module RelayRouting {
  import opened Ids
  import opened Procedures
  import opened IdMap
  import opened RicCore
  import opened Relay
  import opened RelayInv
  import opened RelaySim
  import opened RelayTheorems
  import opened Simulation
  import D = Direct

  // ------------------------------------------------------------ indications

  /** Callback number k was run for an indication that an agent on the node the caller
      subscribed to really sent, under the identifier the relay gave that subscription. */
  ghost predicate ComesFromItsAgent(s: State, k: nat)
    requires k < |s.calls|
  {
    var c := s.calls[k];
    var h := Handle(c.xapp, c.key);
    && h in s.hist && c.callback == s.hist[h].callback && c.node == s.hist[h].node
    && exists i :: 0 <= i < |s.made| && s.made[i].node == c.node && s.made[i].m.body == c.body
                   && WirePacket(NextTable(s).left, s.made[i]).id == h
  }

  /** The indications an agent sent for a call, with a given payload: so many were sent,
      reached the callback, were dropped by the xApp, or are still on their way. */
  function SentFor(s: State, h: Handle, body: int): nat {
    multiset(WirePackets(NextTable(s).left, s.made))[Ind(h, body)]
  }

  function CalledFor(s: State, h: Handle, body: int): nat {
    multiset(CallPackets(s.calls))[Ind(h, body)]
  }

  function DroppedFor(s: State, h: Handle, body: int): nat {
    multiset(XPackets(s.dropped))[Ind(h, body)]
  }

  lemma CallSource(s: State, d: D.State, k: nat)
    requires Linked(s, d) && k < |s.calls|
    ensures ComesFromItsAgent(s, k)
  {
    var left := NextTable(s).left;
    var p := CallPacket(s.calls[k]);
    NextTableOk(s);
    assert CallPackets(s.calls)[k] == p;
    assert p in d.heard && p in d.made;
    var i :| 0 <= i < |s.made| && WirePackets(left, s.made)[i] == p;
    assert Matches(left, s.made[i].node, s.made[i].m.id);
    assert OriginOk(s.hist, left[s.made[i].m.id.reqId]);
  }

  lemma Conservation(s: State, d: D.State, h: Handle, body: int)
    requires Represents(s, d) && D.Conserved(d)
    ensures SentFor(s, h, body) == CalledFor(s, h, body) + DroppedFor(s, h, body) + InFlight(s)[Ind(h, body)]
  {
    assert InFlight(s)[Ind(h, body)] == Expected(d, Ind(h, body));
  }

  /** Routing: no callback runs but for an indication of its own subscription, and
      indications are neither lost between agent and xApp nor duplicated. */
  lemma IndicationsAreRouted(run: seq<State>, steps: seq<Step>, n: nat)
    requires IsRun(run, steps) && run[|steps|].ric.drawn <= MODULUS && n < |run|
    ensures forall k :: 0 <= k < |run[n].calls| ==> ComesFromItsAgent(run[n], k)
    ensures forall h, body :: SentFor(run[n], h, body)
              == CalledFor(run[n], h, body) + DroppedFor(run[n], h, body) + InFlight(run[n])[Ind(h, body)]
  {
    var direct, _ := Shadow(run, steps);
    assert LinkedAt(run, direct, n);
    forall k | 0 <= k < |run[n].calls| ensures ComesFromItsAgent(run[n], k) {
      CallSource(run[n], direct[n], k);
    }
    forall h, body ensures SentFor(run[n], h, body)
        == CalledFor(run[n], h, body) + DroppedFor(run[n], h, body) + InFlight(run[n])[Ind(h, body)] {
      Conservation(run[n], direct[n], h, body);
    }
  }

  // ------------------------------------------------------------ removed handles

  ghost predicate Removed(s: State, h: Handle) {
    h in s.hist && h !in s.reg
  }

  lemma RemovedStays(s: State, st: Step, h: Handle, body: int)
    requires KeysOk(s.nextKey, s.hist) && Enabled(s, st) && Removed(s, h)
    ensures Removed(Apply(s, st), h) && CalledFor(Apply(s, st), h, body) == CalledFor(s, h, body)
  {
    if st.XHear? {
      var i := st.i;
      var g := HandleAtX(s.toX[i]);
      if g in s.reg {
        CallAppend(s.calls, Call(g.xapp, g.key, s.reg[g].issue.callback, s.reg[g].issue.node, s.toX[i].m.body));
      }
    }
  }

  lemma KeysAlwaysOk(run: seq<State>, steps: seq<Step>, n: nat)
    requires IsRun(run, steps) && run[|steps|].ric.drawn <= MODULUS && n < |run|
    ensures KeysOk(run[n].nextKey, run[n].hist)
  {
    var direct, _ := Shadow(run, steps);
    assert LinkedAt(run, direct, n);
  }

  /** Keys are never reused: once a handle is removed it stays removed, and an indication
      for it is dropped rather than passed to any callback. */
  lemma RemovedHandlesStaySilent(run: seq<State>, steps: seq<Step>, k: nat, n: nat, h: Handle, body: int)
    requires IsRun(run, steps) && run[|steps|].ric.drawn <= MODULUS && k <= n < |run|
    requires Removed(run[k], h)
    ensures Removed(run[n], h) && CalledFor(run[n], h, body) == CalledFor(run[k], h, body)
  {
    var removed := (s: State) => Removed(s, h);
    var called := (s: State) => CalledFor(s, h, body);
    forall j | k <= j < |run| - 1 && removed(run[j])
      ensures removed(run[j + 1]) && called(run[j + 1]) == called(run[j])
    {
      KeysAlwaysOk(run, steps, j);
      assert Follows(run, steps, j);
      RemovedStays(run[j], steps[j], h, body);
    }
    Stays(run, removed, called, k, n);
  }

  // ------------------------------------------------------------ deleted subscriptions

  /** Step k serves a delete request for h at its agent. */
  ghost predicate ServesDelete(s: State, st: Step, h: Handle) {
    st.AServe? && Enabled(s, st) && IsDelete(s.ric.down[st.i]) && DownHandle(s, st.i) == h
  }

  lemma ServedDeleteEnds(s: State, d: D.State, st: Step, h: Handle)
    requires Linked(s, d) && ServesDelete(s, st, h) && Apply(s, st).ric.drawn <= MODULUS
    ensures D.Ended(Follow(s, st, d), h) && Follow(s, st, d).made == d.made
  {
    StepRefines(s, d, st);
    DeleteIsInChannel(s, d, st.i);
    D.DeleteEnds(d, h, st.out);
  }

  lemma DeleteIsInChannel(s: State, d: D.State, i: nat)
    requires Carries(InFlight(s), d) && i < |s.ric.down| && IsDelete(s.ric.down[i])
    ensures DownHandle(s, i) in d.channel && d.channel[DownHandle(s, i)].Req?
    ensures d.channel[DownHandle(s, i)].kind == SubscriptionDelete
  {
    QueuedDown(s, i);
    CarriesOne(InFlight(s), d, WirePacket(NextTable(s).left, s.ric.down[i]));
  }

  lemma EndedForGood(run: seq<State>, steps: seq<Step>, direct: seq<D.State>, erased: seq<D.Step>,
                     k: nat, n: nat, h: Handle, body: int)
    requires Shadows(run, steps, direct, erased) && k <= n < |direct| && D.Ended(direct[k], h)
    ensures D.Ended(direct[n], h) && direct[n].made[Ind(h, body)] == direct[k].made[Ind(h, body)]
  {
    var ended := (d: D.State) => D.Ended(d, h);
    var sent := (d: D.State) => d.made[Ind(h, body)];
    forall j | k <= j < |direct| - 1 && ended(direct[j])
      ensures ended(direct[j + 1]) && sent(direct[j + 1]) == sent(direct[j])
    {
      assert LinkedAt(run, direct, j) && D.Follows(direct, erased, j);
      D.EndedStays(direct[j], erased[j], h);
    }
    Stays(direct, ended, sent, k, n);
  }

  lemma SentMirrored(s: State, d: D.State, h: Handle, body: int)
    requires Represents(s, d)
    ensures SentFor(s, h, body) == d.made[Ind(h, body)]
    ensures h in AgentHandles(NextTable(s).left, s.agents) <==> h in d.timers
  {
  }

  lemma EndedIsSilent(run: seq<State>, direct: seq<D.State>, k: nat, n: nat, h: Handle, body: int)
    requires k < n < |run| == |direct| && LinkedAt(run, direct, k) && LinkedAt(run, direct, n)
    requires D.Ended(direct[n], h) && direct[n].made[Ind(h, body)] == direct[k].made[Ind(h, body)]
    ensures h !in AgentHandles(NextTable(run[n]).left, run[n].agents)
    ensures SentFor(run[n], h, body) == SentFor(run[k], h, body)
  {
    SentMirrored(run[k], direct[k], h, body);
    SentMirrored(run[n], direct[n], h, body);
  }

  lemma ShadowedAt(run: seq<State>, steps: seq<Step>, direct: seq<D.State>, erased: seq<D.Step>, k: nat)
    requires Shadows(run, steps, direct, erased) && k < |steps|
    ensures Erases(run, steps, direct, erased, k) && LinkedAt(run, direct, k)
  {
  }

  lemma DeleteEnds(run: seq<State>, steps: seq<Step>, direct: seq<D.State>, erased: seq<D.Step>, k: nat, h: Handle)
    requires Shadows(run, steps, direct, erased) && k < |steps| && ServesDelete(run[k], steps[k], h)
    requires Follows(run, steps, k) && run[k + 1].ric.drawn <= MODULUS
    ensures D.Ended(direct[k + 1], h) && direct[k + 1].made == direct[k].made
  {
    ShadowedAt(run, steps, direct, erased, k);
    ServedDeleteEnds(run[k], direct[k], steps[k], h);
  }

  lemma SilentAfter(run: seq<State>, steps: seq<Step>, direct: seq<D.State>, erased: seq<D.Step>,
                    k: nat, n: nat, h: Handle, body: int)
    requires Shadows(run, steps, direct, erased) && k < n < |run|
    requires D.Ended(direct[k + 1], h) && direct[k + 1].made == direct[k].made
    ensures h !in AgentHandles(NextTable(run[n]).left, run[n].agents)
    ensures SentFor(run[n], h, body) == SentFor(run[k], h, body)
  {
    EndedForGood(run, steps, direct, erased, k + 1, n, h, body);
    assert LinkedAt(run, direct, k) && LinkedAt(run, direct, n);
    EndedIsSilent(run, direct, k, n, h, body);
  }

  /** Delete undoes subscribe: after the agent served the delete request, no agent holds a
      timer for the subscription, and no further indication is ever sent for it. */
  lemma DeletedSubscriptionsAreSilent(run: seq<State>, steps: seq<Step>, k: nat, n: nat, h: Handle, body: int)
    requires IsRun(run, steps) && run[|steps|].ric.drawn <= MODULUS && k < n < |run|
    requires ServesDelete(run[k], steps[k], h)
    ensures h !in AgentHandles(NextTable(run[n]).left, run[n].agents)
    ensures SentFor(run[n], h, body) == SentFor(run[k], h, body)
  {
    var direct, erased := Shadow(run, steps);
    DrawsBounded(run, steps, k + 1);
    assert Follows(run, steps, k);
    DeleteEnds(run, steps, direct, erased, k, h);
    SilentAfter(run, steps, direct, erased, k, n, h, body);
  }

  // ------------------------------------------------------------ pending timers

  /** The pending map is at every moment exactly the requests issued and not yet answered,
      and an answer stops its own timer and no other. */
  lemma PendingIsOutstanding(run: seq<State>, steps: seq<Step>, n: nat)
    requires IsRun(run, steps) && run[|steps|].ric.drawn <= MODULUS && n < |run|
    ensures PendingOk(run[n].ric, Outstanding(run[n]))
    ensures forall i: nat, j: nat, f, g :: CanStop(run[n], i, f) && CanStop(run[n], j, g) ==> (i == j <==> f == g)
  {
    var direct, _ := Shadow(run, steps);
    assert LinkedAt(run, direct, n);
    forall i: nat, j: nat, f, g | CanStop(run[n], i, f) && CanStop(run[n], j, g) ensures i == j <==> f == g {
      StopsItsOwn(run[n], i, j, f, g);
    }
  }

  lemma StopsItsOwn(s: State, i: nat, j: nat, f: int, g: int)
    requires PendingOk(s.ric, Outstanding(s)) && CanStop(s, i, f) && CanStop(s, j, g)
    ensures i == j <==> f == g
  {
    if f == g && i != j {
      TwoArrivals(s, i, j);
    }
  }

  lemma TwoArrivals(s: State, i: nat, j: nat)
    requires i < |s.arrived| && j < |s.arrived| && i != j && EventKey(s.arrived[i].m) == EventKey(s.arrived[j].m)
    ensures Outstanding(s)[EventKey(s.arrived[i].m)] >= 2
  {
    TwiceInBag(EventKeys(s.arrived), i, j);
  }

  lemma TwiceInBag<T>(q: seq<T>, i: nat, j: nat)
    requires i < |q| && j < |q| && i != j && q[i] == q[j]
    ensures multiset(q)[q[i]] >= 2
  {
    var a, b := if i < j then i else j, if i < j then j else i;
    assert q == q[..b] + [q[b]] + q[b + 1..];
    assert q[..b][a] in q[..b];
  }

  // ------------------------------------------------------------ the reserved id

  /** Among the first 65536 requests just one, number 64516 with the id 0, has its answer and
      its indications refused on the way home: whenever the table can be read, the iApp
      forwards a message exactly if it belongs to another request. */
  lemma OneRequestIsRefused(run: seq<State>, steps: seq<Step>, n: nat, i: nat)
    requires IsRun(run, steps) && run[|steps|].ric.drawn <= MODULUS && n < |run|
    requires i < |run[n].stopped| && !WriteLocked(run[n].pc)
    ensures var r := run[n].stopped[i].m.id.reqId;
            && r < MODULUS && ReqIdOf(DrawOf(r)) == r && DrawOf(r) < run[n].ric.drawn
            && (CanForward(run[n], i) <==> DrawOf(r) != MAX_DRAWS)
  {
    var direct, _ := Shadow(run, steps);
    assert LinkedAt(run, direct, n);
    EntriesAreFound(run[n]);
    DrawOfEntry(run[n], i);
  }

  lemma DrawOfEntry(s: State, i: nat)
    requires TableOk(s.table, s.hist, s.ric.drawn) && i < |s.stopped| && s.stopped[i].m.id.reqId in s.table.left
    ensures var r := s.stopped[i].m.id.reqId;
            r < MODULUS && ReqIdOf(DrawOf(r)) == r && DrawOf(r) < s.ric.drawn && (r == 0 <==> DrawOf(r) == MAX_DRAWS)
  {
  }
}
