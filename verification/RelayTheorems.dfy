// What holds of every run of the relay.
module RelayTheorems {
  import opened Ids
  import opened Procedures
  import opened IdMap
  import opened RicCore
  import opened Relay
  import opened RelayInv
  import opened RelayFlight
  import opened RelaySim
  import opened RelayKeeps
  import opened Simulation
  import D = Direct

  // ------------------------------------------------------------ refinement

  /** What a step of the relay looks like on the direct channels. */
  function Erased(s: State, st: Step): D.Step
    requires Enabled(s, st)
  {
    match st
    case XStart(x, issue) => D.Start(Handle(x, s.nextKey[x]), issue)
    case XDelete(h) => D.AskDelete(h)
    case XForget(h) => D.Forget(h)
    case XSettle(i) => D.Settle(HandleAtX(s.toX[i]))
    case XHear(i) => D.Hear(XPacket(s.toX[i]))
    case AServe(i, ok, out, _) => D.Serve(DownHandle(s, i), ok, out)
    case AIndicate(f, body) => D.Indicate(TimerHandle(s, f), body)
    case _ => D.Stutter
  }

  ghost predicate Linked(s: State, d: D.State) {
    Inv(s) && D.Inv(d) && Represents(s, d)
  }

  lemma InitialInv(s: State)
    requires Initial(s)
    ensures Inv(s)
  {
    assert NextTable(s) == EMPTY_TABLE;
    assert Outstanding(s) == multiset{};
  }

  lemma InitialRepresents(s: State, d: D.State)
    requires Initial(s) && D.Initial(d)
    ensures Represents(s, d)
  {
    assert NextTable(s) == EMPTY_TABLE;
    assert InFlight(s) == multiset{};
  }

  lemma InitialLinked(s: State, d: D.State)
    requires Initial(s) && D.Initial(d)
    ensures Linked(s, d)
  {
    InitialInv(s);
    InitialRepresents(s, d);
  }

  lemma StartStep(s: State, d: D.State, st: Step)
    requires Linked(s, d) && Enabled(s, st) && st.XStart?
    ensures Inv(Apply(s, st)) && D.Enabled(d, Erased(s, st)) && Represents(Apply(s, st), D.Apply(d, Erased(s, st)))
  {
    StartSim(s, d, st.x, st.issue);
    StartKeeps(s, st.x, st.issue);
  }

  lemma AskDeleteStep(s: State, d: D.State, st: Step)
    requires Linked(s, d) && Enabled(s, st) && st.XDelete?
    ensures Inv(Apply(s, st)) && D.Enabled(d, Erased(s, st)) && Represents(Apply(s, st), D.Apply(d, Erased(s, st)))
  {
    DeleteSim(s, d, st.h);
    DeleteKeeps(s, d, st.h);
  }

  lemma ForgetStep(s: State, d: D.State, st: Step)
    requires Linked(s, d) && Enabled(s, st) && st.XForget?
    ensures Inv(Apply(s, st)) && D.Enabled(d, Erased(s, st)) && Represents(Apply(s, st), D.Apply(d, Erased(s, st)))
  {
    ForgetSim(s, d, st.h);
    ForgetKeeps(s, st.h);
  }

  lemma ReceivedStep(s: State, d: D.State, st: Step)
    requires Linked(s, d) && Enabled(s, st) && (st.XSettle? || st.XHear?)
    ensures Inv(Apply(s, st)) && D.Enabled(d, Erased(s, st)) && Represents(Apply(s, st), D.Apply(d, Erased(s, st)))
  {
    match st {
      case XSettle(i) => SettleSim(s, d, i); SettleKeeps(s, i);
      case XHear(i) => HearSim(s, d, i); HearKeeps(s, d, i);
    }
  }

  lemma RequestStep(s: State, d: D.State, st: Step)
    requires Linked(s, d) && Enabled(s, st) && (st.IDraw? || st.IArm? || st.ISend? || st.IMap?)
    requires st.IDraw? ==> s.ric.drawn < MODULUS
    ensures Inv(Apply(s, st)) && Represents(Apply(s, st), d)
  {
    match st {
      case IDraw => DrawsNewId(s); DrawSim(s, d); DrawKeeps(s, d);
      case IArm(fd) => ArmSim(s, d, fd); ArmKeeps(s, d, fd);
      case ISend => SendSim(s, d); SendKeeps(s);
      case IMap => MapSim(s, d); MapKeeps(s);
    }
  }

  lemma DeleteStep(s: State, d: D.State, st: Step)
    requires Linked(s, d) && Enabled(s, st) && (st.ITake? || st.ILookup? || st.IArmDelete? || st.ISendDelete?)
    ensures Inv(Apply(s, st)) && Represents(Apply(s, st), d)
  {
    match st {
      case ITake(i) => TakeSim(s, d, i); TakeKeeps(s, i);
      case ILookup => LookupSim(s, d); LookupKeeps(s);
      case IArmDelete(fd) => ArmDeleteSim(s, d, fd); ArmDeleteKeeps(s, d, fd);
      case ISendDelete => DeleteWire(s); SendDeleteSim(s, d); SendDeleteKeeps(s);
    }
  }

  lemma DrawsNewId(s: State)
    requires TableOk(s.table, s.hist, s.ric.drawn) && s.ric.drawn < MODULUS
    ensures ReqIdOf(s.ric.drawn) !in s.table.left && ReqIdOf(s.ric.drawn) < MODULUS
  {
    DrawOfReqId(s.ric.drawn);
  }

  lemma AgentStep(s: State, d: D.State, st: Step)
    requires Linked(s, d) && Enabled(s, st) && (st.AServe? || st.AIndicate?)
    ensures Inv(Apply(s, st)) && D.Enabled(d, Erased(s, st)) && Represents(Apply(s, st), D.Apply(d, Erased(s, st)))
  {
    match st {
      case AServe(i, ok, out, fd) =>
        NextTableOk(s);
        ServeSim(s, d, i, ok, out, fd);
        ServeKeeps(s, d, i, ok, out, fd);
      case AIndicate(f, body) => IndicateSim(s, d, f, body); IndicateKeeps(s, f, body);
    }
  }

  lemma LinkStep(s: State, d: D.State, st: Step)
    requires Linked(s, d) && Enabled(s, st) && (st.TReceive? || st.TPass?)
    ensures Inv(Apply(s, st)) && Represents(Apply(s, st), d)
  {
    TaskSim(s, d, st);
    match st {
      case TReceive(i) => ReceiveKeeps(s, i);
      case TPass(i) => PassKeeps(s, i);
    }
  }

  lemma StopStep(s: State, d: D.State, st: Step)
    requires Linked(s, d) && Enabled(s, st) && st.TStop?
    ensures Inv(Apply(s, st)) && Represents(Apply(s, st), d)
  {
    TaskSim(s, d, st);
    StopKeeps(s, st.i, st.fd);
  }

  lemma ForwardStep(s: State, d: D.State, st: Step)
    requires Linked(s, d) && Enabled(s, st) && st.TForward?
    ensures Inv(Apply(s, st)) && Represents(Apply(s, st), d)
  {
    TaskSim(s, d, st);
    ForwardKeeps(s, st.i);
  }

  lemma QuietStep(s: State, d: D.State, st: Step)
    requires Linked(s, d) && Enabled(s, st) && Erased(s, st) == D.Stutter && Apply(s, st).ric.drawn <= MODULUS
    ensures Inv(Apply(s, st)) && Represents(Apply(s, st), d)
  {
    if st.IDraw? || st.IArm? || st.ISend? || st.IMap? {
      RequestStep(s, d, st);
    } else if st.ITake? || st.ILookup? || st.IArmDelete? || st.ISendDelete? {
      DeleteStep(s, d, st);
    } else if st.TReceive? || st.TPass? {
      LinkStep(s, d, st);
    } else if st.TStop? {
      StopStep(s, d, st);
    } else {
      ForwardStep(s, d, st);
    }
  }

  /** Erasing the id translation, one step of the relay is one step of the direct
      channels, or none. */
  lemma StepRefines(s: State, d: D.State, st: Step)
    requires Linked(s, d) && Enabled(s, st) && Apply(s, st).ric.drawn <= MODULUS
    ensures D.Enabled(d, Erased(s, st)) && Linked(Apply(s, st), D.Apply(d, Erased(s, st)))
  {
    if st.XStart? {
      StartStep(s, d, st);
    } else if st.XDelete? {
      AskDeleteStep(s, d, st);
    } else if st.XForget? {
      ForgetStep(s, d, st);
    } else if st.XSettle? || st.XHear? {
      ReceivedStep(s, d, st);
    } else if st.AServe? || st.AIndicate? {
      AgentStep(s, d, st);
    } else {
      QuietStep(s, d, st);
    }
    D.StepKeepsInv(d, Erased(s, st));
  }

  /** The direct channels following one step of the relay. */
  ghost function Follow(s: State, st: Step, d: D.State): D.State {
    if Enabled(s, st) && D.Enabled(d, Erased(s, st)) then D.Apply(d, Erased(s, st)) else d
  }

  lemma StepFollows(s: State, d: D.State, st: Step, t: State)
    requires Linked(s, d) && Enabled(s, st) && t == Apply(s, st) && t.ric.drawn <= MODULUS
    ensures D.Enabled(d, Erased(s, st)) && Linked(t, Follow(s, st, d))
  {
    StepRefines(s, d, st);
  }

  ghost function DrawnBy(s: State): int {
    s.ric.drawn
  }

  lemma DrawsGrow(s: State, st: Step)
    requires Enabled(s, st)
    ensures s.ric.drawn <= Apply(s, st).ric.drawn
  {
  }

  lemma DrawsBounded(run: seq<State>, steps: seq<Step>, i: nat)
    requires IsRun(run, steps) && i < |run|
    ensures run[i].ric.drawn <= run[|steps|].ric.drawn
  {
    forall j | 0 <= j < |run| - 1 ensures DrawnBy(run[j]) <= DrawnBy(run[j + 1]) {
      assert Follows(run, steps, j);
      DrawsGrow(run[j], steps[j]);
    }
    Grows(run, DrawnBy, i);
  }

  lemma RunStep(run: seq<State>, steps: seq<Step>, i: nat, d: D.State)
    requires i < |steps| < |run| && Linked(run[i], d) && Follows(run, steps, i) && run[i + 1].ric.drawn <= MODULUS
    ensures D.Enabled(d, Erased(run[i], steps[i])) && Linked(run[i + 1], Follow(run[i], steps[i], d))
  {
    StepFollows(run[i], d, steps[i], run[i + 1]);
  }

  /** A run of the direct channels that makes the erased steps of the relay's run and
      represents it at every point. */
  ghost predicate Shadows(run: seq<State>, steps: seq<Step>, direct: seq<D.State>, erased: seq<D.Step>) {
    && |run| == |steps| + 1 == |direct| == |erased| + 1 && D.IsRun(direct, erased)
    && (forall i: nat :: i < |steps| ==> Erases(run, steps, direct, erased, i))
    && (forall i: nat :: i < |run| ==> LinkedAt(run, direct, i))
  }

  ghost predicate LinkedAt(run: seq<State>, direct: seq<D.State>, i: nat)
    requires i < |run| == |direct|
  {
    Linked(run[i], direct[i])
  }

  ghost predicate Erases(run: seq<State>, steps: seq<Step>, direct: seq<D.State>, erased: seq<D.Step>, i: nat)
    requires i < |steps| == |erased| < |run| == |direct|
  {
    && Enabled(run[i], steps[i]) && erased[i] == Erased(run[i], steps[i])
    && direct[i + 1] == Follow(run[i], steps[i], direct[i])
  }

  lemma ShadowFollows(run: seq<State>, steps: seq<Step>, direct: seq<D.State>, erased: seq<D.Step>, i: nat)
    requires |direct| == |run| > |steps| == |erased| && i < |steps| && run[i + 1].ric.drawn <= MODULUS
    requires Erases(run, steps, direct, erased, i)
    requires Follows(run, steps, i) && Linked(run[i], direct[i])
    ensures D.Follows(direct, erased, i)
  {
    RunStep(run, steps, i, direct[i]);
  }

  lemma ShadowExists(run: seq<State>, steps: seq<Step>) returns (direct: seq<D.State>)
    requires IsRun(run, steps) && run[|steps|].ric.drawn <= MODULUS
    ensures |direct| == |run| && D.Initial(direct[0])
    ensures forall i: nat :: i < |run| ==> LinkedAt(run, direct, i)
    ensures forall i: nat :: i < |steps| ==> direct[i + 1] == Follow(run[i], steps[i], direct[i])
  {
    var d := D.State(map[], map[], map[], {}, multiset{}, multiset{}, multiset{}, multiset{});
    InitialLinked(run[0], d);
    forall i, e | 0 <= i < |steps| && Linked(run[i], e) ensures Linked(run[i + 1], Follow(run[i], steps[i], e)) {
      assert Follows(run, steps, i);
      DrawsBounded(run, steps, i + 1);
      RunStep(run, steps, i, e);
    }
    direct := Lift(run, steps, d, Follow, Linked);
  }

  lemma {:induction false} Shadow(run: seq<State>, steps: seq<Step>) returns (direct: seq<D.State>, erased: seq<D.Step>)
    requires IsRun(run, steps) && run[|steps|].ric.drawn <= MODULUS
    ensures Shadows(run, steps, direct, erased)
  {
    direct := ShadowExists(run, steps);
    forall i: nat | i < |steps| ensures Enabled(run[i], steps[i]) {
      assert Follows(run, steps, i);
    }
    erased := seq(|steps|, i requires 0 <= i < |steps| => Erased(run[i], steps[i]));
    forall i: nat | i < |steps| ensures Erases(run, steps, direct, erased, i) && D.Follows(direct, erased, i) {
      assert Follows(run, steps, i) && LinkedAt(run, direct, i);
      DrawsBounded(run, steps, i + 1);
      ShadowFollows(run, steps, direct, erased, i);
    }
  }

  /** Refinement: as long as no request id was drawn twice, every run of xApps,
      iApp, RIC and agents is, message for message, a run of the direct channels. */
  lemma {:induction false} RunRefines(run: seq<State>, steps: seq<Step>)
    requires IsRun(run, steps) && run[|steps|].ric.drawn <= MODULUS
    ensures exists direct, erased :: Shadows(run, steps, direct, erased)
  {
    var direct, erased := Shadow(run, steps);
  }

  // ------------------------------------------------------------ the asserts of the source

  /** Every answer that arrived finds its pending event: the timer was armed first. */
  ghost predicate AnswersFindTimers(s: State) {
    forall i :: 0 <= i < |s.arrived| && s.arrived[i].m.Ans? ==> exists fd :: CanStop(s, i, fd)
  }

  /** Whenever the table can be read, the id of every message going home is in it: no
      message overtakes the entry for its own request. Only the id 0 is refused. */
  ghost predicate MessagesFindEntries(s: State) {
    forall i :: 0 <= i < |s.stopped| && !WriteLocked(s.pc) ==>
      Known(s.table.left, s.stopped[i].m.id) && (CanForward(s, i) <==> s.stopped[i].m.id.reqId != 0)
  }

  /** No id 0 was drawn yet. */
  ghost predicate NoneIsZero(s: State) {
    forall i :: 0 <= i < |s.stopped| && !WriteLocked(s.pc) ==> s.stopped[i].m.id.reqId != 0
  }

  /** The iApp thread never stops: a drawn id is new in both trees, a delete request
      finds the id of its subscription. */
  ghost predicate ThreadNeverStops(s: State) {
    && (s.pc.Holding? ==> CanDraw(s))
    && (s.pc.Forwarded? ==> CanMap(s) && XOf(s.pc.e) !in s.table.right)
    && (s.pc.Looking? ==> CanLookup(s))
  }

  predicate IsDelete(w: Wire) {
    w.m.Req? && w.m.kind == SubscriptionDelete
  }

  /** A delete request finds exactly one timer at its agent, the subscription's. */
  ghost predicate DeletesFindTimers(s: State) {
    forall i: nat :: OldestWire(s.ric.down, i) && IsDelete(s.ric.down[i]) ==>
      && (exists fd :: CanServe(s, i, true, 0, fd))
      && (forall fd, gd :: CanServe(s, i, true, 0, fd) && CanServe(s, i, true, 0, gd) ==> fd == gd)
  }

  /** An answer finds the procedure that waits for just this kind of answer. */
  ghost predicate AnswersFindCallers(s: State) {
    forall i: nat :: OldestX(s.toX, i) && s.toX[i].m.Ans? ==>
      CanSettle(s, i) && s.reg[HandleAtX(s.toX[i])].phase == Waiting(s.toX[i].m.kind)
  }

  lemma ArrivedIsPending(s: State, i: nat)
    requires PendingOk(s.ric, Outstanding(s)) && i < |s.arrived| && s.arrived[i].m.Ans?
    ensures exists fd :: CanStop(s, i, fd)
  {
    var ev := PendingRic(EventOf(s.arrived[i].m.kind), s.arrived[i].m.id);
    WireRemove(map[], s.arrived, i);
    assert Some(ev) in Outstanding(s);
    var fd :| fd in s.ric.pending && s.ric.pending[fd] == ev;
    assert CanStop(s, i, fd);
  }

  lemma TimersAreFound(s: State)
    requires PendingOk(s.ric, Outstanding(s))
    ensures AnswersFindTimers(s)
  {
    forall i | 0 <= i < |s.arrived| && s.arrived[i].m.Ans? ensures exists fd :: CanStop(s, i, fd) {
      ArrivedIsPending(s, i);
    }
  }

  lemma EntriesAreFound(s: State)
    requires HomeOk(NextTable(s).left, s.stopped) && TableOk(s.table, s.hist, s.ric.drawn)
    requires PcOk(s.hist, s.table, s.ric.drawn, s.pc)
    ensures MessagesFindEntries(s) && ThreadNeverStops(s)
    ensures s.ric.drawn <= MAX_DRAWS ==> NoneIsZero(s)
  {
    DrawOfReqId(0);
  }

  lemma DeletedTimer(s: State, d: D.State, i: nat)
    requires Represents(s, d) && D.ChannelOk(d.reg, d.channel) && D.TimersOk(d.reg, d.channel, d.timers)
    requires D.RegOk(d.reg, d.hist)
    requires AgentsOk(NextTable(s).left, s.agents) && DownOk(NextTable(s).left, s.ric.down)
    requires TableOk(NextTable(s), s.hist, s.ric.drawn)
    requires OldestWire(s.ric.down, i) && IsDelete(s.ric.down[i])
    ensures exists fd :: CanServe(s, i, true, 0, fd)
  {
    var left, w := NextTable(s).left, s.ric.down[i];
    var h := DownHandle(s, i);
    QueuedDown(s, i);
    CarriesOne(InFlight(s), d, WirePacket(left, w));
    assert h in d.timers;
    var f :| f in s.agents && s.agents[f].reqId in left && h == HandleOf(left[s.agents[f].reqId].x);
    SameEntry(NextTable(s), s.hist, s.ric.drawn, s.agents[f].reqId, w.m.id.reqId);
    assert CanServe(s, i, true, 0, f.fd);
  }

  /** The table holds one entry for each procedure. */
  lemma SameEntry(t: Table, hist: map<Handle, Issue>, drawn: nat, r: nat, q: nat)
    requires TableOk(t, hist, drawn) && r in t.left && q in t.left
    requires HandleOf(t.left[r].x) == HandleOf(t.left[q].x)
    ensures r == q
  {
    assert OriginOk(hist, t.left[r]) && OriginOk(hist, t.left[q]);
    assert t.left[r].x == t.left[q].x;
  }

  lemma DeletedTimersAreFound(s: State, d: D.State)
    requires Linked(s, d)
    ensures DeletesFindTimers(s)
  {
    NextTableOk(s);
    forall i: nat | OldestWire(s.ric.down, i) && IsDelete(s.ric.down[i])
      ensures exists fd :: CanServe(s, i, true, 0, fd)
    {
      DeletedTimer(s, d, i);
    }
  }

  lemma CallersAreFound(s: State, d: D.State)
    requires Represents(s, d) && D.ChannelOk(d.reg, d.channel)
    ensures AnswersFindCallers(s)
  {
    forall i: nat | OldestX(s.toX, i) && s.toX[i].m.Ans?
      ensures CanSettle(s, i) && s.reg[HandleAtX(s.toX[i])].phase == Waiting(s.toX[i].m.kind)
    {
      QueuedAtX(s, i);
      CarriesOne(InFlight(s), d, XPacket(s.toX[i]));
    }
  }

  /** In every interleaving of at most 65536 requests, an answer finds its pending event, a
      message its table entry, the iApp thread a new id or the one to delete, a delete its
      agent timer and an answer its procedure; the assert that the id is not 0 holds for
      the first 64515 requests. The asserts on the xApp's own timers are in XappCalls. */
  lemma AssertsHold(run: seq<State>, steps: seq<Step>, n: nat)
    requires IsRun(run, steps) && run[|steps|].ric.drawn <= MODULUS && n < |run|
    ensures AnswersFindTimers(run[n]) && MessagesFindEntries(run[n]) && ThreadNeverStops(run[n])
    ensures DeletesFindTimers(run[n]) && AnswersFindCallers(run[n])
    ensures run[n].ric.drawn <= MAX_DRAWS ==> NoneIsZero(run[n])
  {
    var direct, _ := Shadow(run, steps);
    assert LinkedAt(run, direct, n);
    TimersAreFound(run[n]);
    EntriesAreFound(run[n]);
    DeletedTimersAreFound(run[n], direct[n]);
    CallersAreFound(run[n], direct[n]);
  }
}
