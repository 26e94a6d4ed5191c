// What a call asks for and what it is told, from end to end: the request an agent gets and
// the answer an xApp handles, over whole runs and without reference to the direct channels.
module RelayAnswers {
  import opened Ids
  import opened Procedures
  import opened IdMap
  import opened RicCore
  import opened Relay
  import opened RelayInv
  import opened RelaySim
  import opened RelayTheorems
  import opened Simulation
  import D = Direct

  // ------------------------------------------------------------ what the histories log

  /** Started calls, indications, answers given and answers handled are logged by the step
      that makes them, as it makes them, and by no other. */
  lemma StepsAreLogged(s: State, st: Step)
    requires Enabled(s, st)
    ensures var t := Apply(s, st);
            && t.hist == (if st.XStart? then s.hist[Handle(st.x, s.nextKey[st.x]) := st.issue] else s.hist)
            && t.made == s.made + (if st.AIndicate? then [Wire(st.f.node, Ind(s.agents[st.f], st.body))] else [])
            && t.answered == s.answered
                 + (if st.AServe?
                    then var w := s.ric.down[st.i]; [Wire(w.node, Ans(w.m.kind, w.m.id, st.ok, st.out))]
                    else [])
            && t.settled == s.settled + (if st.XSettle? then [s.toX[st.i]] else [])
  {
  }

  /** The call that step j starts is in the history for good, just as it was started. */
  lemma {:induction false} StartsAreKept(run: seq<State>, steps: seq<Step>, j: nat, n: nat)
    requires IsRun(run, steps) && run[|steps|].ric.drawn <= MODULUS && j < n < |run| && steps[j].XStart?
    ensures steps[j].x in run[j].nextKey
    ensures var h := Handle(steps[j].x, run[j].nextKey[steps[j].x]);
            h !in run[j].hist && h in run[n].hist && run[n].hist[h] == steps[j].issue
  {
    assert Follows(run, steps, n - 1);
    assert Follows(run, steps, j);
    KeysAreNew(run, steps, j);
    if n == j + 1 {
    } else {
      StartsAreKept(run, steps, j, n - 1);
      KeysAreNew(run, steps, n - 1);
    }
  }

  lemma KeysAreNew(run: seq<State>, steps: seq<Step>, n: nat)
    requires IsRun(run, steps) && run[|steps|].ric.drawn <= MODULUS && n < |run|
    ensures forall x :: x in run[n].nextKey ==> Handle(x, run[n].nextKey[x]) !in run[n].hist
  {
    var direct, _ := Shadow(run, steps);
    assert LinkedAt(run, direct, n);
  }

  // ------------------------------------------------------------ requests

  /** The call a message on the wire belongs to, by the table and the request about to be
      recorded in it. */
  function CallOf(left: map<nat, Origin>, w: Wire): Handle {
    if w.m.id.reqId in left then HandleOf(left[w.m.id.reqId].x) else Handle(0, 0)
  }

  /** A request at an agent is what its call asked for: it is on the node, for the RAN
      function, of the kind and with the payload the call was started with, or it is the
      delete of a subscription. */
  ghost predicate AskedFor(s: State, w: Wire) {
    && w.m.Req? && CallOf(NextTable(s).left, w) in s.hist
    && var issue := s.hist[CallOf(NextTable(s).left, w)];
       && w.node == issue.node && w.m.id.ranFuncId == issue.ranFunc && w.m.id.instId == 0
       && ((w.m.kind == issue.kind && w.m.body == issue.body)
           || (w.m.kind == SubscriptionDelete && issue.kind == Subscription && w.m.body == 0))
  }

  lemma QueuedIsAskedFor(s: State, d: D.State, i: nat)
    requires Linked(s, d) && i < |s.ric.down|
    ensures AskedFor(s, s.ric.down[i])
  {
    var w := s.ric.down[i];
    NextTableOk(s);
    QueuedDown(s, i);
    assert Matches(NextTable(s).left, w.node, w.m.id);
    CarriesOne(InFlight(s), d, WirePacket(NextTable(s).left, w));
    assert OriginOk(s.hist, NextTable(s).left[w.m.id.reqId]);
  }

  /** In every run, every request that reaches an agent is what its call asked for. */
  lemma RequestsArriveAsIssued(run: seq<State>, steps: seq<Step>, n: nat, i: nat)
    requires IsRun(run, steps) && run[|steps|].ric.drawn <= MODULUS && n < |run| && i < |run[n].ric.down|
    ensures AskedFor(run[n], run[n].ric.down[i])
  {
    var direct, _ := Shadow(run, steps);
    assert LinkedAt(run, direct, n);
    QueuedIsAskedFor(run[n], direct[n], i);
  }

  // ------------------------------------------------------------ answers

  /** What an xApp is told for an agent's answer: kind and verdict are the agent's, the
      identifier is the xApp's own, and so is the payload but for a control acknowledge,
      which loses it. */
  predicate Explains(w: Wire, o: Origin, p: XWire) {
    && w.m.Ans? && p.m.Ans? && w.node == o.node && p.xapp == o.x.xappId && p.m.id == o.x.ricId
    && p.m.kind == w.m.kind && p.m.ok == w.m.ok
    && p.m.body == if w.m.kind == Control && w.m.ok then 0 else w.m.body
  }

  predicate ExplainedBy(left: map<nat, Origin>, w: Wire, p: XWire) {
    w.m.id.reqId in left && Explains(w, left[w.m.id.reqId], p)
  }

  ghost predicate Explained(left: map<nat, Origin>, answered: seq<Wire>, p: XWire) {
    exists w :: w in answered && ExplainedBy(left, w, p)
  }

  ghost predicate AllLogged(answered: seq<Wire>, q: seq<Wire>) {
    forall i :: 0 <= i < |q| && q[i].m.Ans? ==> q[i] in answered
  }

  ghost predicate AllExplained(left: map<nat, Origin>, answered: seq<Wire>, q: seq<XWire>) {
    forall i :: 0 <= i < |q| && q[i].m.Ans? ==> Explained(left, answered, q[i])
  }

  ghost predicate AnswersOk(s: State) {
    && AllLogged(s.answered, s.back) && AllLogged(s.answered, s.arrived) && AllLogged(s.answered, s.stopped)
    && AllExplained(s.table.left, s.answered, s.toX) && AllExplained(s.table.left, s.answered, s.settled)
    && (forall i :: 0 <= i < |s.answered| ==> s.answered[i].m.Ans?)
    && (forall i :: 0 <= i < |s.settled| ==> s.settled[i].m.Ans?)
  }

  lemma ExplainedStays(left: map<nat, Origin>, answered: seq<Wire>, q: seq<XWire>,
                       more: map<nat, Origin>, longer: seq<Wire>)
    requires AllExplained(left, answered, q) && answered <= longer
    requires forall r :: r in left ==> r in more && more[r] == left[r]
    ensures AllExplained(more, longer, q)
  {
    forall i | 0 <= i < |q| && q[i].m.Ans? ensures Explained(more, longer, q[i]) {
      var w :| w in answered && ExplainedBy(left, w, q[i]);
      assert w in longer && ExplainedBy(more, w, q[i]);
    }
  }

  lemma ServeKeepsAnswers(s: State, st: Step)
    requires AnswersOk(s) && Enabled(s, st) && st.AServe?
    ensures AnswersOk(Apply(s, st))
  {
    var t := Apply(s, st);
    ExplainedStays(s.table.left, s.answered, s.toX, s.table.left, t.answered);
    ExplainedStays(s.table.left, s.answered, s.settled, s.table.left, t.answered);
  }

  lemma MapKeepsAnswers(s: State)
    requires AnswersOk(s) && Enabled(s, IMap)
    ensures AnswersOk(Apply(s, IMap))
  {
    var t := Apply(s, IMap);
    ExplainedStays(s.table.left, s.answered, s.toX, t.table.left, s.answered);
    ExplainedStays(s.table.left, s.answered, s.settled, t.table.left, s.answered);
  }

  lemma ForwardKeepsAnswers(s: State, i: nat)
    requires AnswersOk(s) && CanForward(s, i) && HomeOk(s.table.left, s.stopped)
    ensures AnswersOk(AfterForward(s, i))
  {
    var w := s.stopped[i];
    var p := Translated(s.table.left, w.m);
    if w.m.Ans? {
      assert w in s.answered && ExplainedBy(s.table.left, w, p);
    }
  }

  lemma LinksKeepAnswers(s: State, st: Step)
    requires AnswersOk(s) && Enabled(s, st) && (st.AIndicate? || st.TReceive? || st.TStop? || st.TPass?)
    ensures AnswersOk(Apply(s, st))
  {
  }

  lemma RestKeepsAnswers(s: State, st: Step)
    requires AnswersOk(s) && Enabled(s, st) && !st.AServe? && !st.IMap? && !st.TForward?
    requires !st.AIndicate? && !st.TReceive? && !st.TStop? && !st.TPass?
    ensures AnswersOk(Apply(s, st))
  {
  }

  lemma StepKeepsAnswers(s: State, st: Step)
    requires AnswersOk(s) && Enabled(s, st) && HomeOk(NextTable(s).left, s.stopped)
    ensures AnswersOk(Apply(s, st))
  {
    if st.AServe? {
      ServeKeepsAnswers(s, st);
    } else if st.IMap? {
      MapKeepsAnswers(s);
    } else if st.TForward? {
      ForwardKeepsAnswers(s, st.i);
    } else if st.AIndicate? || st.TReceive? || st.TStop? || st.TPass? {
      LinksKeepAnswers(s, st);
    } else {
      RestKeepsAnswers(s, st);
    }
  }

  lemma HomeAt(run: seq<State>, steps: seq<Step>, direct: seq<D.State>, erased: seq<D.Step>, n: nat)
    requires Shadows(run, steps, direct, erased) && n < |run|
    ensures HomeOk(NextTable(run[n]).left, run[n].stopped)
  {
    assert LinkedAt(run, direct, n);
  }

  lemma AnswersAt(run: seq<State>, steps: seq<Step>, n: nat)
    requires n < |steps| < |run| && Follows(run, steps, n) && AnswersOk(run[n])
    requires HomeOk(NextTable(run[n]).left, run[n].stopped)
    ensures AnswersOk(run[n + 1])
  {
    StepKeepsAnswers(run[n], steps[n]);
  }

  lemma InitialAnswers(s: State)
    requires Initial(s)
    ensures AnswersOk(s)
  {
  }

  lemma {:induction false} RunKeepsAnswers(run: seq<State>, steps: seq<Step>, direct: seq<D.State>,
                                           erased: seq<D.Step>, n: nat)
    requires IsRun(run, steps) && Shadows(run, steps, direct, erased) && n < |run|
    ensures AnswersOk(run[n])
  {
    if n == 0 {
      InitialAnswers(run[0]);
    } else {
      RunKeepsAnswers(run, steps, direct, erased, n - 1);
      HomeAt(run, steps, direct, erased, n - 1);
      assert Follows(run, steps, n - 1);
      AnswersAt(run, steps, n - 1);
    }
  }

  // ------------------------------------------------------------ one answer for each request

  /** How far a call got: asking, answered, active, asking for its delete, that answered, over,
      removed. */
  function Stage(d: D.State, h: Handle): nat {
    if h !in d.reg then 6
    else
      var told := if h in d.channel && d.channel[h].Ans? then 1 else 0;
      match d.reg[h].phase
      case Waiting(k) => (if k == SubscriptionDelete then 3 else 0) + told
      case Active => 2
      case Answered => 5
  }

  /** The stage at which the answer of this kind is on its way. */
  function Mark(k: Kind): nat {
    if k == SubscriptionDelete then 4 else 1
  }

  /** A call never goes back. */
  lemma StageGrows(d: D.State, st: D.Step, h: Handle)
    requires D.RegOk(d.reg, d.hist) && D.ChannelOk(d.reg, d.channel) && D.Enabled(d, st) && h in d.hist
    ensures Stage(d, h) <= Stage(D.Apply(d, st), h) && h in D.Apply(d, st).hist
  {
  }

  /** No call goes back from d to e. */
  ghost predicate Onward(d: D.State, e: D.State) {
    forall h :: h in d.hist ==> h in e.hist && Stage(d, h) <= Stage(e, h)
  }

  ghost predicate AnsweredTo(left: map<nat, Origin>, d: D.State, w: Wire) {
    w.m.Ans? && w.m.id.reqId in left && CallOf(left, w) in d.hist && Stage(d, CallOf(left, w)) >= Mark(w.m.kind)
  }

  ghost predicate SettledFor(d: D.State, p: XWire) {
    p.m.Ans? && HandleAtX(p) in d.hist && Stage(d, HandleAtX(p)) > Mark(p.m.kind)
  }

  /** An agent answered each request at most once. */
  ghost predicate AnsweredOnce(left: map<nat, Origin>, answered: seq<Wire>) {
    forall i, j :: 0 <= i < j < |answered| && answered[i].m.Ans? && answered[j].m.Ans? ==>
      CallOf(left, answered[i]) != CallOf(left, answered[j]) || answered[i].m.kind != answered[j].m.kind
  }

  /** An xApp handled each answer at most once. */
  ghost predicate SettledOnce(settled: seq<XWire>) {
    forall i, j :: 0 <= i < j < |settled| && settled[i].m.Ans? && settled[j].m.Ans? ==>
      HandleAtX(settled[i]) != HandleAtX(settled[j]) || settled[i].m.kind != settled[j].m.kind
  }

  ghost predicate AllAnsweredTo(left: map<nat, Origin>, d: D.State, answered: seq<Wire>) {
    forall i :: 0 <= i < |answered| ==> AnsweredTo(left, d, answered[i])
  }

  ghost predicate AllSettledFor(d: D.State, settled: seq<XWire>) {
    forall i :: 0 <= i < |settled| ==> SettledFor(d, settled[i])
  }

  ghost predicate Once(s: State, d: D.State) {
    && AllAnsweredTo(NextTable(s).left, d, s.answered) && AnsweredOnce(NextTable(s).left, s.answered)
    && AllSettledFor(d, s.settled) && SettledOnce(s.settled)
  }

  lemma AnswerAdded(left: map<nat, Origin>, d: D.State, answered: seq<Wire>, w: Wire, e: D.State)
    requires AllAnsweredTo(left, d, answered) && AnsweredOnce(left, answered) && Onward(d, e)
    requires AnsweredTo(left, e, w) && Stage(d, CallOf(left, w)) < Mark(w.m.kind)
    ensures AllAnsweredTo(left, e, answered + [w]) && AnsweredOnce(left, answered + [w])
  {
    forall i | 0 <= i < |answered| ensures AnsweredTo(left, e, answered[i]) {
      assert AnsweredTo(left, d, answered[i]);
    }
  }

  lemma AnswersStay(left: map<nat, Origin>, d: D.State, answered: seq<Wire>, more: map<nat, Origin>, e: D.State)
    requires AllAnsweredTo(left, d, answered) && AnsweredOnce(left, answered) && Onward(d, e)
    requires forall r :: r in left ==> r in more && more[r] == left[r]
    ensures AllAnsweredTo(more, e, answered) && AnsweredOnce(more, answered)
  {
    forall i | 0 <= i < |answered| ensures AnsweredTo(more, e, answered[i]) {
      assert AnsweredTo(left, d, answered[i]);
    }
  }

  lemma SettledAdded(d: D.State, settled: seq<XWire>, p: XWire, e: D.State)
    requires AllSettledFor(d, settled) && SettledOnce(settled) && Onward(d, e)
    requires SettledFor(e, p) && Stage(d, HandleAtX(p)) <= Mark(p.m.kind)
    ensures AllSettledFor(e, settled + [p]) && SettledOnce(settled + [p])
  {
    forall i | 0 <= i < |settled| ensures SettledFor(e, settled[i]) {
      assert SettledFor(d, settled[i]);
    }
  }

  lemma SettledStays(d: D.State, settled: seq<XWire>, e: D.State)
    requires AllSettledFor(d, settled) && Onward(d, e)
    ensures AllSettledFor(e, settled)
  {
    forall i | 0 <= i < |settled| ensures SettledFor(e, settled[i]) {
      assert SettledFor(d, settled[i]);
    }
  }

  lemma StepIsOnward(d: D.State, a: D.Step)
    requires D.RegOk(d.reg, d.hist) && D.ChannelOk(d.reg, d.channel) && D.Enabled(d, a)
    ensures Onward(d, D.Apply(d, a))
  {
    forall h | h in d.hist ensures h in D.Apply(d, a).hist && Stage(d, h) <= Stage(D.Apply(d, a), h) {
      StageGrows(d, a, h);
    }
  }

  /** Serving a request answers a call that was asking for it. */
  lemma ServeMarks(s: State, d: D.State, i: nat, ok: bool, out: int, fd: int)
    requires Linked(s, d) && CanServe(s, i, ok, out, fd)
    ensures var w, a := AnswerOf(s.ric.down[i], ok, out), D.Serve(DownHandle(s, i), ok, out);
            var h := CallOf(NextTable(s).left, w);
            && D.Enabled(d, a) && Stage(d, h) < Mark(w.m.kind)
            && AnsweredTo(NextTable(s).left, D.Apply(d, a), w)
  {
    var w, h := s.ric.down[i], DownHandle(s, i);
    ServeEnabled(s, d, i, ok, out, fd);
    assert Matches(NextTable(s).left, w.node, w.m.id);
    NextTableOk(s);
    assert OriginOk(s.hist, NextTable(s).left[w.m.id.reqId]);
    ServedStage(d, h, ok, out);
  }

  lemma ServedStage(d: D.State, h: Handle, ok: bool, out: int)
    requires D.ChannelOk(d.reg, d.channel) && D.Enabled(d, D.Serve(h, ok, out))
    ensures var k, e := d.channel[h].kind, D.Apply(d, D.Serve(h, ok, out)); Stage(d, h) < Mark(k) == Stage(e, h)
  {
  }

  /** Handling an answer settles a call that was waiting for it. */
  lemma SettleMarks(s: State, d: D.State, i: nat)
    requires Linked(s, d) && CanSettle(s, i)
    ensures var p, a := s.toX[i], D.Settle(HandleAtX(s.toX[i]));
            D.Enabled(d, a) && Stage(d, HandleAtX(p)) <= Mark(p.m.kind) && SettledFor(D.Apply(d, a), p)
  {
    SettleEnabled(s, d, i);
    SettledStage(d, HandleAtX(s.toX[i]));
  }

  lemma SettledStage(d: D.State, h: Handle)
    requires D.ChannelOk(d.reg, d.channel) && D.Enabled(d, D.Settle(h))
    ensures var k, e := d.channel[h].kind, D.Apply(d, D.Settle(h)); Stage(d, h) == Mark(k) < Stage(e, h)
  {
  }

  lemma DrawGrowsTable(s: State)
    requires TableOk(s.table, s.hist, s.ric.drawn) && CanDraw(s) && s.ric.drawn < MODULUS
    ensures forall r :: r in NextTable(s).left ==>
              r in NextTable(AfterDraw(s)).left && NextTable(AfterDraw(s)).left[r] == NextTable(s).left[r]
  {
    DrawsNewId(s);
  }

  lemma ThreadKeepsTable(s: State, st: Step)
    requires Enabled(s, st)
    requires st.ITake? || st.IArm? || st.ISend? || st.IMap? || st.ILookup? || st.IArmDelete? || st.ISendDelete?
    ensures NextTable(Apply(s, st)) == NextTable(s)
  {
  }

  lemma OthersKeepTable(s: State, st: Step)
    requires Enabled(s, st) && !st.ITake? && !st.IDraw? && !st.IArm? && !st.ISend? && !st.IMap?
    requires !st.ILookup? && !st.IArmDelete? && !st.ISendDelete?
    ensures Apply(s, st).pc == s.pc && Apply(s, st).table == s.table
  {
  }

  lemma TableGrows(s: State, st: Step)
    requires TableOk(s.table, s.hist, s.ric.drawn) && Enabled(s, st) && Apply(s, st).ric.drawn <= MODULUS
    ensures forall r :: r in NextTable(s).left ==>
              r in NextTable(Apply(s, st)).left && NextTable(Apply(s, st)).left[r] == NextTable(s).left[r]
  {
    if st.IDraw? {
      DrawGrowsTable(s);
    } else if st.ITake? || st.IArm? || st.ISend? || st.IMap? || st.ILookup? || st.IArmDelete? || st.ISendDelete? {
      ThreadKeepsTable(s, st);
    } else {
      OthersKeepTable(s, st);
    }
  }

  lemma ServeKeepsOnce(s: State, d: D.State, st: Step, t: State, e: D.State)
    requires Linked(s, d) && Once(s, d) && Enabled(s, st) && st.AServe? && t == Apply(s, st)
    requires D.Enabled(d, D.Serve(DownHandle(s, st.i), st.ok, st.out)) && Onward(d, e)
    requires e == D.Apply(d, D.Serve(DownHandle(s, st.i), st.ok, st.out))
    ensures Once(t, e)
  {
    var w := AnswerOf(s.ric.down[st.i], st.ok, st.out);
    assert NextTable(t) == NextTable(s) && t.settled == s.settled && t.answered == s.answered + [w];
    ServeMarks(s, d, st.i, st.ok, st.out, st.fd);
    AnswerAdded(NextTable(s).left, d, s.answered, w, e);
    SettledStays(d, s.settled, e);
  }

  lemma SettleKeepsOnce(s: State, d: D.State, st: Step, t: State, e: D.State)
    requires Linked(s, d) && Once(s, d) && Enabled(s, st) && st.XSettle? && t == Apply(s, st)
    requires D.Enabled(d, D.Settle(HandleAtX(s.toX[st.i]))) && Onward(d, e)
    requires e == D.Apply(d, D.Settle(HandleAtX(s.toX[st.i])))
    ensures Once(t, e)
  {
    assert NextTable(t) == NextTable(s) && t.answered == s.answered;
    SettleMarks(s, d, st.i);
    SettledAdded(d, s.settled, s.toX[st.i], e);
    AnswersStay(NextTable(s).left, d, s.answered, NextTable(s).left, e);
  }

  lemma RestKeepsOnce(s: State, d: D.State, st: Step, t: State, e: D.State)
    requires Once(s, d) && Enabled(s, st) && !st.AServe? && !st.XSettle? && t == Apply(s, st) && Onward(d, e)
    requires TableOk(s.table, s.hist, s.ric.drawn) && t.ric.drawn <= MODULUS
    ensures Once(t, e)
  {
    StepsAreLogged(s, st);
    TableGrows(s, st);
    AnswersStay(NextTable(s).left, d, s.answered, NextTable(t).left, e);
    SettledStays(d, s.settled, e);
  }

  lemma StepKeepsOnce(s: State, d: D.State, st: Step, t: State, e: D.State)
    requires Linked(s, d) && Once(s, d) && Enabled(s, st) && t == Apply(s, st) && t.ric.drawn <= MODULUS
    requires D.Enabled(d, Erased(s, st)) && e == D.Apply(d, Erased(s, st))
    ensures Once(t, e)
  {
    StepIsOnward(d, Erased(s, st));
    if st.AServe? {
      ServeKeepsOnce(s, d, st, t, e);
    } else if st.XSettle? {
      SettleKeepsOnce(s, d, st, t, e);
    } else {
      RestKeepsOnce(s, d, st, t, e);
    }
  }

  lemma OnceAt(run: seq<State>, steps: seq<Step>, direct: seq<D.State>, erased: seq<D.Step>, n: nat)
    requires Shadows(run, steps, direct, erased) && n < |steps| && Follows(run, steps, n)
    requires run[n + 1].ric.drawn <= MODULUS && Once(run[n], direct[n])
    ensures Once(run[n + 1], direct[n + 1])
  {
    ShadowStep(run, steps, direct, erased, n);
    StepKeepsOnce(run[n], direct[n], steps[n], run[n + 1], direct[n + 1]);
  }

  lemma ShadowStep(run: seq<State>, steps: seq<Step>, direct: seq<D.State>, erased: seq<D.Step>, n: nat)
    requires Shadows(run, steps, direct, erased) && n < |steps|
    ensures LinkedAt(run, direct, n) && Erases(run, steps, direct, erased, n) && D.Follows(direct, erased, n)
  {
  }

  lemma InitialOnce(s: State, d: D.State)
    requires Initial(s)
    ensures Once(s, d)
  {
  }

  lemma {:induction false} RunKeepsOnce(run: seq<State>, steps: seq<Step>, direct: seq<D.State>, erased: seq<D.Step>,
                                        n: nat)
    requires IsRun(run, steps) && run[|steps|].ric.drawn <= MODULUS && Shadows(run, steps, direct, erased) && n < |run|
    ensures Once(run[n], direct[n])
  {
    if n == 0 {
      InitialOnce(run[0], direct[0]);
    } else {
      RunKeepsOnce(run, steps, direct, erased, n - 1);
      DrawsBounded(run, steps, n);
      assert Follows(run, steps, n - 1);
      OnceAt(run, steps, direct, erased, n - 1);
    }
  }

  /** Only control requests are refused, and only their answers carry a payload. */
  ghost predicate OthersSucceed(answered: seq<Wire>) {
    forall i :: 0 <= i < |answered| && answered[i].m.Ans? && answered[i].m.kind != Control ==>
      answered[i].m.ok && answered[i].m.body == 0
  }

  lemma StepKeepsSuccess(s: State, st: Step)
    requires OthersSucceed(s.answered) && Enabled(s, st)
    ensures OthersSucceed(Apply(s, st).answered)
  {
    StepsAreLogged(s, st);
  }

  lemma {:induction false} RunKeepsSuccess(run: seq<State>, steps: seq<Step>, n: nat)
    requires IsRun(run, steps) && n < |run|
    ensures OthersSucceed(run[n].answered)
  {
    if n == 0 {
    } else {
      RunKeepsSuccess(run, steps, n - 1);
      assert Follows(run, steps, n - 1);
      StepKeepsSuccess(run[n - 1], steps[n - 1]);
    }
  }

  /** In every run, each answer an xApp handled is the answer an agent gave on the node of the
      call to the call's request of that kind: it has the agent's verdict, and of a refusal
      the agent's cause; a control acknowledge comes without its outcome. Subscriptions and
      deletes always succeed. */
  lemma AnswersReachTheirCalls(run: seq<State>, steps: seq<Step>, n: nat, k: nat) returns (i: nat)
    requires IsRun(run, steps) && run[|steps|].ric.drawn <= MODULUS && n < |run| && k < |run[n].settled|
    ensures i < |run[n].answered|
    ensures var s, w, p := run[n], run[n].answered[i], run[n].settled[k];
            && CallOf(NextTable(s).left, w) == HandleAtX(p)
            && HandleAtX(p) in s.hist && w.node == s.hist[HandleAtX(p)].node
            && w.m.Ans? && p.m.Ans? && p.m.kind == w.m.kind && p.m.ok == w.m.ok
            && (p.m.kind == Control && p.m.ok ==> p.m.body == 0)
            && (!(p.m.kind == Control && p.m.ok) ==> p.m.body == w.m.body)
            && (p.m.kind != Control ==> p.m.ok && p.m.body == 0)
  {
    RunKeepsSuccess(run, steps, n);
    var direct, erased := Shadow(run, steps);
    RunKeepsAnswers(run, steps, direct, erased, n);
    assert LinkedAt(run, direct, n);
    i := ExplainedAt(run[n], k);
  }

  lemma RecordedStays(s: State)
    requires PcOk(s.hist, s.table, s.ric.drawn, s.pc)
    ensures forall r :: r in s.table.left ==> r in NextTable(s).left && NextTable(s).left[r] == s.table.left[r]
  {
  }

  lemma ExplainedAt(s: State, k: nat) returns (i: nat)
    requires TableOk(s.table, s.hist, s.ric.drawn) && PcOk(s.hist, s.table, s.ric.drawn, s.pc)
    requires AnswersOk(s) && k < |s.settled|
    ensures i < |s.answered| && ExplainedBy(NextTable(s).left, s.answered[i], s.settled[k])
    ensures CallOf(NextTable(s).left, s.answered[i]) == HandleAtX(s.settled[k]) && HandleAtX(s.settled[k]) in s.hist
    ensures s.answered[i].node == s.hist[HandleAtX(s.settled[k])].node
  {
    RecordedStays(s);
    assert Explained(s.table.left, s.answered, s.settled[k]);
    var w :| w in s.answered && ExplainedBy(s.table.left, w, s.settled[k]);
    i :| 0 <= i < |s.answered| && s.answered[i] == w;
    assert OriginOk(s.hist, s.table.left[w.m.id.reqId]);
  }

  /** And it is the only one: no request is answered twice, and no answer handled twice. */
  lemma AnswersAreUnique(run: seq<State>, steps: seq<Step>, n: nat)
    requires IsRun(run, steps) && run[|steps|].ric.drawn <= MODULUS && n < |run|
    ensures AnsweredOnce(NextTable(run[n]).left, run[n].answered) && SettledOnce(run[n].settled)
    ensures forall i :: 0 <= i < |run[n].answered| ==> run[n].answered[i].m.Ans?
    ensures forall i :: 0 <= i < |run[n].settled| ==> run[n].settled[i].m.Ans?
  {
    var direct, erased := Shadow(run, steps);
    RunKeepsOnce(run, steps, direct, erased, n);
    RunKeepsAnswers(run, steps, direct, erased, n);
  }
}
