// Runs of the relay in which a call is answered, an indication reaches its callback and a
// subscription is deleted again, for any xApp, any call and any payload: the theorems about
// runs are not about nothing.
module RelayExample {
  import opened Ids
  import opened Procedures
  import opened IdMap
  import opened RicCore
  import opened Relay

  lemma Extended(run: seq<State>, steps: seq<Step>, st: Step) returns (longer: seq<State>, more: seq<Step>)
    requires IsRun(run, steps) && Enabled(run[|steps|], st)
    ensures IsRun(longer, more) && |more| == |steps| + 1 && longer[|more|] == Apply(run[|steps|], st)
  {
    longer, more := run + [Apply(run[|steps|], st)], steps + [st];
    forall i: nat | i < |more| ensures Follows(longer, more, i) {
      if i < |steps| {
        assert Follows(run, steps, i);
      }
    }
  }

  /** The id an xApp's first request gets, and the id the RIC's first request gets. */
  function OwnId(issue: Issue): RicGenId {
    RicGenId(1, 0, issue.ranFunc)
  }

  function RelayId(issue: Issue): RicGenId {
    RicGenId(FIRST_REQ_ID, 0, issue.ranFunc)
  }

  /** The table after the one request. */
  function OneEntry(x: nat, issue: Issue): Table {
    Added(EMPTY_TABLE, issue.node, FIRST_REQ_ID, XappRicId(OwnId(issue), x))
  }

  function Start0(x: nat): State {
    State(map[x := 1], map[], map[], [], Idle, EMPTY_TABLE, FRESH_RIC, map[], [], [], [], [], [], [], [], [], [])
  }

  /** The iApp drew an id for the request. */
  function Drawing(x: nat, issue: Issue): State {
    var h := Handle(x, 1);
    State(map[x := 2], map[h := Proc(issue, Waiting(issue.kind))], map[h := issue], [],
          GotId(E42Request(x, issue.node, issue.kind, OwnId(issue), issue.body), FIRST_REQ_ID), EMPTY_TABLE,
          Ric(1, map[], {}, []), map[], [], [], [], [], [], [], [], [], [])
  }

  function Event(issue: Issue): PendingRic {
    PendingRic(if issue.kind == Subscription then SubscriptionPending else ControlPending, RelayId(issue))
  }

  /** The request is recorded and on its way to the agent. */
  function Asked(x: nat, issue: Issue): State {
    Drawing(x, issue).(pc := Idle, table := OneEntry(x, issue),
      ric := Ric(1, map[5 := Event(issue)], {5}, [Wire(issue.node, Req(issue.kind, RelayId(issue), issue.body))]))
  }

  predicate CanAnswer(issue: Issue, ok: bool, out: int) {
    issue.kind != SubscriptionDelete && (issue.kind == Subscription ==> ok && out == 0)
  }

  function AgentsAnswer(issue: Issue, ok: bool, out: int): Wire {
    Wire(issue.node, Ans(issue.kind, RelayId(issue), ok, out))
  }

  /** The agent serves the request, its answer arrived at the RIC. */
  function Arrived(x: nat, issue: Issue, ok: bool, out: int): State {
    Asked(x, issue).(ric := Ric(1, map[5 := Event(issue)], {5}, []),
      agents := if issue.kind == Subscription then map[AgentFd(issue.node, 9) := RelayId(issue)] else map[],
      arrived := [AgentsAnswer(issue, ok, out)], answered := [AgentsAnswer(issue, ok, out)])
  }

  /** The timer of the request was stopped. */
  function Handled(x: nat, issue: Issue, ok: bool, out: int): State {
    Arrived(x, issue, ok, out).(ric := Ric(1, map[], {}, []), arrived := [], stopped := [AgentsAnswer(issue, ok, out)])
  }

  /** The xApp has its answer, which lost its payload if it is a control acknowledge. */
  function Served(x: nat, issue: Issue, ok: bool, out: int): State {
    var answer := Ans(issue.kind, OwnId(issue), ok, if issue.kind == Control && ok then 0 else out);
    Handled(x, issue, ok, out).(stopped := [], settled := [XWire(x, answer)],
      reg := map[Handle(x, 1) := Proc(issue, if issue.kind == Subscription then Active else Answered)])
  }

  /** An indication of the agent arrived at the RIC. */
  function Indicated(x: nat, issue: Issue, body: int): State {
    var p := Wire(issue.node, Ind(RelayId(issue), body));
    Served(x, issue, true, 0).(made := [p], arrived := [p])
  }

  // ------------------------------------------------------------ a call and its answer

  lemma RequestIsDrawn(x: nat, issue: Issue) returns (run: seq<State>, steps: seq<Step>)
    requires issue.kind != SubscriptionDelete
    ensures IsRun(run, steps) && run[|steps|] == Drawing(x, issue)
  {
    run, steps := [Start0(x)], [];
    run, steps := Extended(run, steps, XStart(x, issue));
    run, steps := Extended(run, steps, ITake(0));
    run, steps := Extended(run, steps, IDraw);
  }

  lemma RequestIsSent(x: nat, issue: Issue) returns (run: seq<State>, steps: seq<Step>)
    requires issue.kind != SubscriptionDelete
    ensures IsRun(run, steps) && run[|steps|] == Asked(x, issue)
  {
    run, steps := RequestIsDrawn(x, issue);
    run, steps := Extended(run, steps, IArm(5));
    run, steps := Extended(run, steps, ISend);
    run, steps := Extended(run, steps, IMap);
  }

  lemma AnswerArrives(x: nat, issue: Issue, ok: bool, out: int) returns (run: seq<State>, steps: seq<Step>)
    requires CanAnswer(issue, ok, out)
    ensures IsRun(run, steps) && run[|steps|] == Arrived(x, issue, ok, out)
  {
    run, steps := RequestIsSent(x, issue);
    run, steps := Extended(run, steps, AServe(0, ok, out, 9));
    run, steps := Extended(run, steps, TReceive(0));
  }

  lemma AnswerIsHandled(x: nat, issue: Issue, ok: bool, out: int) returns (run: seq<State>, steps: seq<Step>)
    requires CanAnswer(issue, ok, out)
    ensures IsRun(run, steps) && run[|steps|] == Handled(x, issue, ok, out)
  {
    run, steps := AnswerArrives(x, issue, ok, out);
    run, steps := Extended(run, steps, TStop(0, 5));
  }

  lemma AnswerIsForwarded(x: nat, issue: Issue, ok: bool, out: int) returns (run: seq<State>, steps: seq<Step>)
    requires CanAnswer(issue, ok, out)
    ensures IsRun(run, steps)
    ensures var body := if issue.kind == Control && ok then 0 else out;
            run[|steps|] == Handled(x, issue, ok, out).(
              stopped := [], toX := [XWire(x, Ans(issue.kind, OwnId(issue), ok, body))])
  {
    run, steps := AnswerIsHandled(x, issue, ok, out);
    run, steps := Extended(run, steps, TForward(0));
  }

  lemma AnswerIsDelivered(x: nat, issue: Issue, ok: bool, out: int) returns (run: seq<State>, steps: seq<Step>)
    requires CanAnswer(issue, ok, out)
    ensures IsRun(run, steps) && run[|steps|] == Served(x, issue, ok, out)
  {
    run, steps := AnswerIsForwarded(x, issue, ok, out);
    run, steps := Extended(run, steps, XSettle(0));
  }

  /** A control request is answered, refused ones included: the xApp gets verdict and, of a
      refusal, the cause, and the procedure is removed. */
  lemma ControlIsAnswered(x: nat, issue: Issue, ok: bool, out: int) returns (run: seq<State>, steps: seq<Step>)
    requires issue.kind == Control
    ensures IsRun(run, steps) && run[|steps|].reg == map[] && run[|steps|].ric.pending == map[]
    ensures run[|steps|].answered == [Wire(issue.node, Ans(Control, RelayId(issue), ok, out))]
    ensures run[|steps|].settled == [XWire(x, Ans(Control, RicGenId(1, 0, issue.ranFunc), ok, if ok then 0 else out))]
  {
    run, steps := AnswerIsDelivered(x, issue, ok, out);
    run, steps := Extended(run, steps, XForget(Handle(x, 1)));
  }

  // ------------------------------------------------------------ an indication

  lemma IndicationArrives(x: nat, issue: Issue, body: int) returns (run: seq<State>, steps: seq<Step>)
    requires issue.kind == Subscription
    ensures IsRun(run, steps) && run[|steps|] == Indicated(x, issue, body)
  {
    run, steps := AnswerIsDelivered(x, issue, true, 0);
    run, steps := Extended(run, steps, AIndicate(AgentFd(issue.node, 9), body));
    run, steps := Extended(run, steps, TReceive(0));
  }

  /** The indication runs the callback of the subscription, with its E2 node. */
  lemma SubscriptionReachesItsCallback(x: nat, issue: Issue, body: int) returns (run: seq<State>, steps: seq<Step>)
    requires issue.kind == Subscription
    ensures IsRun(run, steps) && run[|steps|].ric.drawn == 1
    ensures run[|steps|].calls == [Call(x, 1, issue.callback, issue.node, body)]
  {
    run, steps := IndicationArrives(x, issue, body);
    run, steps := Extended(run, steps, TPass(0));
    run, steps := Extended(run, steps, TForward(0));
    run, steps := Extended(run, steps, XHear(0));
  }

  // ------------------------------------------------------------ a delete

  /** The iApp has the delete request and found what it is about. */
  function LookedUp(x: nat, issue: Issue): State {
    Served(x, issue, true, 0).(reg := map[Handle(x, 1) := Proc(issue, Waiting(SubscriptionDelete))],
      pc := Found(E42Delete(x, OwnId(issue)), Target(issue.node, FIRST_REQ_ID)))
  }

  /** The delete request is on its way to the agent. */
  function Deleting(x: nat, issue: Issue): State {
    LookedUp(x, issue).(pc := Idle,
      ric := Ric(1, map[6 := PendingRic(SubscriptionDeletePending, RelayId(issue))], {6},
                 [Wire(issue.node, Req(SubscriptionDelete, RelayId(issue), 0))]))
  }

  /** The agent deleted the subscription, and the timer of the delete was stopped. */
  function Deleted(x: nat, issue: Issue): State {
    var s, w := Served(x, issue, true, 0), Wire(issue.node, Ans(SubscriptionDelete, RelayId(issue), true, 0));
    Deleting(x, issue).(ric := Ric(1, map[], {}, []), agents := map[], stopped := [w], answered := s.answered + [w])
  }

  lemma DeleteIsLookedUp(x: nat, issue: Issue) returns (run: seq<State>, steps: seq<Step>)
    requires issue.kind == Subscription
    ensures IsRun(run, steps) && run[|steps|] == LookedUp(x, issue)
  {
    run, steps := AnswerIsDelivered(x, issue, true, 0);
    run, steps := Extended(run, steps, XDelete(Handle(x, 1)));
    run, steps := Extended(run, steps, ITake(0));
    run, steps := Extended(run, steps, ILookup);
  }

  lemma DeleteIsSent(x: nat, issue: Issue) returns (run: seq<State>, steps: seq<Step>)
    requires issue.kind == Subscription
    ensures IsRun(run, steps) && run[|steps|] == Deleting(x, issue)
  {
    run, steps := DeleteIsLookedUp(x, issue);
    run, steps := Extended(run, steps, IArmDelete(6));
    run, steps := Extended(run, steps, ISendDelete);
  }

  lemma DeleteIsServed(x: nat, issue: Issue) returns (run: seq<State>, steps: seq<Step>)
    requires issue.kind == Subscription
    ensures IsRun(run, steps)
    ensures var s, t := Deleting(x, issue), Deleted(x, issue);
            run[|steps|] == s.(ric := s.ric.(down := []), agents := map[], back := t.stopped, answered := t.answered)
  {
    run, steps := DeleteIsSent(x, issue);
    run, steps := Extended(run, steps, AServe(0, true, 0, 9));
  }

  /** The answer to the delete arrived at the RIC. */
  function DeleteArrived(x: nat, issue: Issue): State {
    Deleted(x, issue).(ric := Deleting(x, issue).ric.(down := []), stopped := [], arrived := Deleted(x, issue).stopped)
  }

  lemma DeleteArrives(x: nat, issue: Issue) returns (run: seq<State>, steps: seq<Step>)
    requires issue.kind == Subscription
    ensures IsRun(run, steps) && run[|steps|] == DeleteArrived(x, issue)
  {
    run, steps := DeleteIsServed(x, issue);
    run, steps := Extended(run, steps, TReceive(0));
  }

  lemma DeleteIsHandled(x: nat, issue: Issue) returns (run: seq<State>, steps: seq<Step>)
    requires issue.kind == Subscription
    ensures IsRun(run, steps) && run[|steps|] == Deleted(x, issue)
  {
    run, steps := DeleteArrives(x, issue);
    run, steps := Extended(run, steps, TStop(0, 6));
  }

  lemma DeleteIsDelivered(x: nat, issue: Issue) returns (run: seq<State>, steps: seq<Step>)
    requires issue.kind == Subscription
    ensures IsRun(run, steps)
    ensures run[|steps|] == Deleted(x, issue).(stopped := [], reg := map[Handle(x, 1) := Proc(issue, Answered)],
      settled := Deleted(x, issue).settled + [XWire(x, Ans(SubscriptionDelete, OwnId(issue), true, 0))])
  {
    run, steps := DeleteIsHandled(x, issue);
    run, steps := Extended(run, steps, TForward(0));
    run, steps := Extended(run, steps, XSettle(0));
  }

  /** A subscription is deleted: no timer is left at agent or RIC and no procedure at the
      xApp. */
  lemma SubscriptionIsDeleted(x: nat, issue: Issue) returns (run: seq<State>, steps: seq<Step>)
    requires issue.kind == Subscription
    ensures IsRun(run, steps) && run[|steps|].reg == map[] && run[|steps|].agents == map[]
    ensures run[|steps|].ric.pending == map[] && run[|steps|].ric.timers == {}
    ensures |run[|steps|].settled| == 2
    ensures run[|steps|].settled[1] == XWire(x, Ans(SubscriptionDelete, RicGenId(1, 0, issue.ranFunc), true, 0))
  {
    run, steps := DeleteIsDelivered(x, issue);
    run, steps := Extended(run, steps, XForget(Handle(x, 1)));
  }
}
