// The E2 agent: which descriptors it polls, what each of them means, and the timers its
// handlers open and close (src/agent/e2_agent.c, msg_handler_agent.c, not_handler_agent.c).
module AgentLoop {
  import opened Ids
  import opened Procedures
  import opened RicCore
  import Relay

  /** `ind` are the timers of periodic subscriptions, `pending` those that wait for a setup
      response, `polled` what epoll watches. `losses` and `answers` count the lost
      connections and the setup responses so far. */
  datatype Agent = Agent(sock: int, pipe: int, ind: map<int, RicGenId>, pending: set<int>, polled: set<int>,
                         losses: nat, answers: nat)

  /** What the loop takes the event on a descriptor for. */
  datatype Event = SctpMsg | AperiodicIndication | Indication(id: RicGenId) | SetupTimeout | AssertFails

  /** The questions of the cascade, in its order; pend_event asserts a single setup timer. */
  function Classified(a: Agent, fd: int): Event {
    if fd == a.sock then SctpMsg
    else if fd == a.pipe then AperiodicIndication
    else if fd in a.ind then Indication(a.ind[fd])
    else if |a.pending| != 1 then AssertFails
    else SetupTimeout
  }

  predicate FreshAt(a: Agent, fd: int) {
    fd > 0 && fd !in a.polled
  }

  predicate Serves(a: Agent, id: RicGenId) {
    exists fd :: fd in a.ind && a.ind[fd] == id
  }

  // ------------------------------------------------------------ what the handlers do

  function Connected(sock: int, pipe: int): Agent {
    Agent(sock, pipe, map[], {}, {sock, pipe}, 0, 0)
  }

  function Started(a: Agent, fd: int): Agent {
    a.(pending := a.pending + {fd}, polled := a.polled + {fd})
  }

  function Subscribed(a: Agent, id: RicGenId, fd: int): Agent {
    a.(ind := a.ind[fd := id], polled := a.polled + {fd})
  }

  function Unsubscribed(a: Agent, fd: int): Agent {
    a.(ind := a.ind - {fd}, polled := a.polled - {fd})
  }

  function SetUp(a: Agent, fd: int): Agent {
    a.(pending := a.pending - {fd}, polled := a.polled - {fd}, answers := a.answers + 1)
  }

  function Lost(a: Agent, fd: int): Agent {
    Started(a, fd).(losses := a.losses + 1)
  }

  // ------------------------------------------------------------ the agent as an object

  class E2Agent {
    const sock: int
    const pipe: int
    var ind: map<int, RicGenId>
    var pending: map<int, EventKind>
    var polled: set<int>
    ghost var losses: nat
    ghost var answers: nat

    ghost function Model(): Agent
      reads this
    {
      Agent(sock, pipe, ind, pending.Keys, polled, losses, answers)
    }

    ghost predicate Valid()
      reads this
    {
      Inv(Model()) && forall fd :: fd in pending ==> pending[fd] == SetupRequestPending
    }

    /** e2_init_agent, then the beginning of e2_start_agent. */
    constructor (sock: int, pipe: int, fd: int)
      requires sock > 0 && pipe > 0 && sock != pipe && FreshAt(Connected(sock, pipe), fd)
      ensures Valid() && Model() == Started(Connected(sock, pipe), fd)
    {
      StartedInv(sock, pipe, fd);
      this.sock, this.pipe := sock, pipe;
      ind, pending, polled := map[], map[fd := SetupRequestPending], {sock, pipe, fd};
      losses, answers := 0, 0;
    }

    /** The classification cascade of next_async_event_agent. */
    method NextEvent(fd: int) returns (e: Event)
      requires Valid() && fd in polled
      ensures e.SctpMsg? <==> fd == sock
      ensures e.AperiodicIndication? <==> fd == pipe
      ensures e.Indication? <==> fd in ind
      ensures e.Indication? ==> e.id == ind[fd]
      ensures e.SetupTimeout? <==> fd in pending && forall f :: f in pending ==> f == fd
      ensures e.AssertFails? <==> fd in pending && exists f :: f in pending && f != fd
      ensures e == Classified(Model(), fd)
    {
      OnlyOne(pending.Keys, fd);
      if fd == sock {
        e := SctpMsg;
      } else if fd == pipe {
        e := AperiodicIndication;
      } else if fd in ind {
        e := Indication(ind[fd]);
      } else if |pending.Keys| != 1 {
        e := AssertFails;
      } else {
        e := SetupTimeout;
      }
    }

    method HandleSubscriptionRequest(id: RicGenId, fd: int) returns (ans: Msg<RicGenId>)
      requires Valid() && FreshAt(Model(), fd) && !Serves(Model(), id)
      modifies this
      ensures Valid() && Model() == Subscribed(old(Model()), id, fd)
      ensures ans == Ans(Subscription, id, true, 0)
    {
      StepKeepsInv(Model(), Subscribe(id, fd));
      ind := ind[fd := id];
      polled := polled + {fd};
      ans := Ans(Subscription, id, true, 0);
    }

    /** stop_ind_event finds the entry by the whole identifier and closes its timer. */
    method HandleSubscriptionDeleteRequest(id: RicGenId) returns (ans: Msg<RicGenId>, ghost fd: int)
      requires Valid() && Serves(Model(), id)
      modifies this
      ensures fd in old(ind) && old(ind)[fd] == id
      ensures Valid() && Model() == Unsubscribed(old(Model()), fd) && !Serves(Model(), id)
      ensures ans == Ans(SubscriptionDelete, id, true, 0)
    {
      var f :| f in ind && ind[f] == id;
      fd := f;
      StepKeepsInv(Model(), Delete(f));
      ind := ind - {f};
      polled := polled - {f};
      ans := Ans(SubscriptionDelete, id, true, 0);
    }

    /** stop_pending_event: the tree is ordered by kind, so any setup timer may go. */
    method HandleSetupResponse() returns (ghost fd: int)
      requires Valid() && exists f :: f in pending
      modifies this
      ensures fd in old(pending) && Valid() && Model() == SetUp(old(Model()), fd)
    {
      var f :| f in pending && pending[f] == SetupRequestPending;
      fd := f;
      StepKeepsInv(Model(), SetupResponse(f));
      pending := pending - {f};
      polled := polled - {f};
      answers := answers + 1;
    }

    method NotificationHandle(fd: int)
      requires Valid() && FreshAt(Model(), fd)
      modifies this
      ensures Valid() && Model() == Lost(old(Model()), fd)
    {
      StepKeepsInv(Model(), ConnectionLost(fd));
      pending := pending[fd := SetupRequestPending];
      polled := polled + {fd};
      losses := losses + 1;
      assert pending.Keys == old(pending.Keys) + {fd};
    }
  }

  // ------------------------------------------------------------ every reachable state

  datatype Step =
    | Subscribe(id: RicGenId, fd: int) | Delete(fd: int) | SetupResponse(fd: int) | ConnectionLost(fd: int)

  /** A subscription comes with an id that is not served yet (RelayKeeps.ServeAgents). */
  predicate Enabled(a: Agent, st: Step) {
    match st
    case Subscribe(id, fd) => FreshAt(a, fd) && !Serves(a, id)
    case Delete(fd) => fd in a.ind
    case SetupResponse(fd) => fd in a.pending
    case ConnectionLost(fd) => FreshAt(a, fd)
  }

  function Apply(a: Agent, st: Step): Agent
    requires Enabled(a, st)
  {
    match st
    case Subscribe(id, fd) => Subscribed(a, id, fd)
    case Delete(fd) => Unsubscribed(a, fd)
    case SetupResponse(fd) => SetUp(a, fd)
    case ConnectionLost(fd) => Lost(a, fd)
  }

  ghost predicate Initial(a: Agent) {
    exists fd :: a.sock > 0 && a.pipe > 0 && a.sock != a.pipe && FreshAt(Connected(a.sock, a.pipe), fd)
                 && a == Started(Connected(a.sock, a.pipe), fd)
  }

  ghost predicate Follows(run: seq<Agent>, steps: seq<Step>, i: nat)
    requires i < |steps| < |run|
  {
    Enabled(run[i], steps[i]) && run[i + 1] == Apply(run[i], steps[i])
  }

  ghost predicate IsRun(run: seq<Agent>, steps: seq<Step>) {
    |run| == |steps| + 1 && Initial(run[0]) && forall i: nat :: i < |steps| ==> Follows(run, steps, i)
  }

  /** What is polled is the disjoint union of the two fixed descriptors, the subscription
      timers and the setup timers. */
  ghost predicate Partitioned(a: Agent) {
    && (forall fd :: fd in a.polled <==> fd == a.sock || fd == a.pipe || fd in a.ind || fd in a.pending)
    && a.sock != a.pipe
    && a.sock !in a.ind && a.sock !in a.pending && a.pipe !in a.ind && a.pipe !in a.pending
    && (forall fd :: fd in a.ind ==> fd !in a.pending)
  }

  ghost predicate OneTimerEach(ind: map<int, RicGenId>) {
    forall f, g :: f in ind && g in ind && ind[f] == ind[g] ==> f == g
  }

  ghost predicate Inv(a: Agent) {
    && Partitioned(a)
    && (forall fd :: fd in a.polled ==> fd > 0)
    && OneTimerEach(a.ind)
    && |a.pending| + a.answers == 1 + a.losses
  }

  lemma CountWithout(s: set<int>, x: int)
    requires x in s
    ensures |s - {x}| == |s| - 1
  {
  }

  lemma StepKeepsPartition(a: Agent, st: Step)
    requires Partitioned(a) && Enabled(a, st)
    ensures Partitioned(Apply(a, st))
  {
  }

  lemma StepKeepsTimers(a: Agent, st: Step)
    requires OneTimerEach(a.ind) && Enabled(a, st)
    ensures OneTimerEach(Apply(a, st).ind)
  {
  }

  lemma StepKeepsInv(a: Agent, st: Step)
    requires Inv(a) && Enabled(a, st)
    ensures Inv(Apply(a, st))
  {
    StepKeepsPartition(a, st);
    StepKeepsTimers(a, st);
    if st.SetupResponse? {
      CountWithout(a.pending, st.fd);
    }
  }

  lemma StartedInv(sock: int, pipe: int, fd: int)
    requires sock > 0 && pipe > 0 && sock != pipe && FreshAt(Connected(sock, pipe), fd)
    ensures Inv(Started(Connected(sock, pipe), fd))
  {
    assert Started(Connected(sock, pipe), fd).pending == {fd};
  }

  lemma {:induction false} RunKeepsInv(run: seq<Agent>, steps: seq<Step>, n: nat)
    requires IsRun(run, steps) && n < |run|
    ensures Inv(run[n])
  {
    if n == 0 {
      var fd :| FreshAt(Connected(run[0].sock, run[0].pipe), fd)
                && run[0] == Started(Connected(run[0].sock, run[0].pipe), fd);
      StartedInv(run[0].sock, run[0].pipe, fd);
    } else {
      RunKeepsInv(run, steps, n - 1);
      assert Follows(run, steps, n - 1);
      StepKeepsInv(run[n - 1], steps[n - 1]);
    }
  }

  lemma OnlyOne(s: set<int>, x: int)
    ensures x in s ==> (|s| == 1 <==> forall y :: y in s ==> y == x)
  {
    if x in s {
      CountWithout(s, x);
      if |s| == 1 {
        assert s - {x} == {};
        assert forall y :: y in s ==> y in s - {x} || y == x;
      }
      if forall y :: y in s ==> y == x {
        assert s == {x};
      }
    }
  }

  /** In every reachable state each polled descriptor is exactly one of the socket, the pipe,
      a subscription timer and a setup timer, and the cascade takes it for what it is,
      whatever the order of its questions; its assert fails for a setup timer exactly if
      lost connections and setup responses differ in number. */
  lemma EveryDescriptorMeansOneThing(run: seq<Agent>, steps: seq<Step>, n: nat, fd: int)
    requires IsRun(run, steps) && n < |run| && fd in run[n].polled
    ensures 1 == (if fd == run[n].sock then 1 else 0) + (if fd == run[n].pipe then 1 else 0)
               + (if fd in run[n].ind then 1 else 0) + (if fd in run[n].pending then 1 else 0)
    ensures var a, e := run[n], Classified(run[n], fd);
            && (e.SctpMsg? <==> fd == a.sock)
            && (e.AperiodicIndication? <==> fd == a.pipe)
            && (e.Indication? <==> fd in a.ind) && (e.Indication? ==> e.id == a.ind[fd])
            && (e.SetupTimeout? <==> fd in a.pending && forall f :: f in a.pending ==> f == fd)
            && (e.AssertFails? <==> fd in a.pending && a.losses != a.answers)
  {
    RunKeepsInv(run, steps, n);
    OnlyOne(run[n].pending, fd);
  }

  // ------------------------------------------------------------ timers over runs

  /** A timer leaves only by the step that closes it, and enters only by one that opens it. */
  lemma TimersChange(a: Agent, st: Step, fd: int)
    requires Enabled(a, st)
    ensures var b := Apply(a, st);
            && (fd in b.ind <==> (fd in a.ind && st != Delete(fd)) || (st.Subscribe? && st.fd == fd))
            && (fd in b.pending <==> (fd in a.pending && st != SetupResponse(fd)) || st == ConnectionLost(fd))
            && (fd in b.ind ==> b.ind[fd] == if st.Subscribe? && st.fd == fd then st.id else a.ind[fd])
            && b.sock == a.sock && b.pipe == a.pipe
  {
  }

  /** The subscription was opened on this descriptor in step j and not deleted since. */
  ghost predicate OpenSince(steps: seq<Step>, j: nat, n: nat, fd: int)
    requires j < n <= |steps|
  {
    steps[j].Subscribe? && steps[j].fd == fd && forall i :: j < i < n ==> steps[i] != Delete(fd)
  }

  ghost predicate Opened(steps: seq<Step>, n: nat, fd: int)
    requires n <= |steps|
  {
    exists j :: 0 <= j < n && OpenSince(steps, j, n, fd)
  }

  lemma OpenStaysOpen(steps: seq<Step>, n: nat, fd: int)
    requires 0 < n <= |steps|
    ensures Opened(steps, n, fd)
            <==> (steps[n - 1].Subscribe? && steps[n - 1].fd == fd)
                 || (steps[n - 1] != Delete(fd) && Opened(steps, n - 1, fd))
  {
    var m: nat := n - 1;
    if j :| 0 <= j < n && OpenSince(steps, j, n, fd) {
      if j < m {
        assert OpenSince(steps, j, m, fd);
      }
    }
    if steps[n - 1].Subscribe? && steps[n - 1].fd == fd {
      assert OpenSince(steps, n - 1, n, fd);
    } else if steps[n - 1] != Delete(fd) {
      if j :| 0 <= j < m && OpenSince(steps, j, m, fd) {
        assert OpenSince(steps, j, n, fd);
      }
    }
  }

  /** In every run a descriptor is a subscription timer exactly from the request that opened
      it to the delete that closes it, whatever connections are lost in between, and for
      the identifier of that request. */
  lemma {:induction false} ServedFromSubscribeToDelete(run: seq<Agent>, steps: seq<Step>, n: nat, fd: int)
    requires IsRun(run, steps) && n < |run|
    ensures fd in run[n].ind <==> Opened(steps, n, fd)
    ensures forall j :: 0 <= j < n && OpenSince(steps, j, n, fd) ==>
              fd in run[n].ind && run[n].ind[fd] == steps[j].id
  {
    if n == 0 {
    } else {
      ServedFromSubscribeToDelete(run, steps, n - 1, fd);
      assert Follows(run, steps, n - 1);
      TimersChange(run[n - 1], steps[n - 1], fd);
      OpenStaysOpen(steps, n, fd);
      RunKeepsInv(run, steps, n - 1);
      forall j | 0 <= j < n && OpenSince(steps, j, n, fd)
        ensures fd in run[n].ind && run[n].ind[fd] == steps[j].id
      {
        if j < n - 1 {
          assert OpenSince(steps, j, n - 1, fd);
        }
      }
    }
  }

  /** The assert of pend_event can fail: a second connection loss before the setup response
      leaves two setup timers. */
  lemma TwoLossesBreakTheAssert() returns (run: seq<Agent>, steps: seq<Step>)
    ensures IsRun(run, steps)
    ensures 7 in run[|steps|].polled && Classified(run[|steps|], 7) == AssertFails
  {
    var a := Started(Connected(4, 5), 7);
    assert FreshAt(Connected(4, 5), 7);
    var b := Apply(a, ConnectionLost(8));
    run, steps := [a, b], [ConnectionLost(8)];
    RunKeepsInv(run, steps, 1);
  }

  // ------------------------------------------------------------ the agents of the relay

  /** The subscription timers of one agent of the relay. */
  function TimersOf(agents: map<Relay.AgentFd, RicGenId>, node: NodeId): map<int, RicGenId> {
    map f | f in agents && f.node == node :: f.fd := agents[f]
  }

  /** What the relay says an agent does when it serves a request is what its handlers do. */
  lemma RelayAgentsAreAgents(agents: map<Relay.AgentFd, RicGenId>, w: Wire, fd: int, a: Agent)
    requires w.m.Req? && a.ind == TimersOf(agents, w.node)
    ensures TimersOf(Relay.ServedAgents(agents, w, fd), w.node)
            == match w.m.kind
               case Subscription => Subscribed(a, w.m.id, fd).ind
               case SubscriptionDelete => Unsubscribed(a, fd).ind
               case Control => a.ind
  {
    var after, own := Relay.ServedAgents(agents, w, fd), Relay.AgentFd(w.node, fd);
    assert forall f :: f != own ==> (f in after <==> f in agents);
    assert own in after <==> w.m.kind == Subscription || (own in agents && w.m.kind == Control);
  }

  /** And it is nobody else's business. */
  lemma OtherAgentsAreUntouched(agents: map<Relay.AgentFd, RicGenId>, w: Wire, fd: int, other: NodeId)
    requires w.m.Req? && other != w.node
    ensures TimersOf(Relay.ServedAgents(agents, w, fd), other) == TimersOf(agents, other)
  {
    assert forall f: Relay.AgentFd :: f.node == other ==> (f in Relay.ServedAgents(agents, w, fd) <==> f in agents);
  }
}
