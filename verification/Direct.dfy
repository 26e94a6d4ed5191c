// The specification of the relay: every procedure call of an xApp has a private
// channel to its agent, keyed by the xApp and the request id the xApp chose itself.
// The channel holds at most one message: the request, or the answer to it. There is
// no identifier translation, no intermediate node, no queue and no lock here.
module Direct {
  import opened Ids
  import opened Procedures

  type Packet = Msg<Handle>

  /** `reg` holds the active procedures of all xApps and `hist` every procedure ever
      started. `channel` and `inds` are the messages in flight; `timers` are the
      subscriptions some agent serves; `made`, `heard` and `dropped` are histories of
      the indications produced, passed to a callback, and discarded. */
  datatype State = State(reg: map<Handle, Proc>, hist: map<Handle, Issue>,
                         channel: map<Handle, Packet>, timers: set<Handle>,
                         inds: multiset<Packet>,
                         made: multiset<Packet>, heard: multiset<Packet>, dropped: multiset<Packet>)

  datatype Step =
    | Start(h: Handle, issue: Issue)
    | AskDelete(h: Handle)
    | Serve(h: Handle, ok: bool, out: int)
    | Indicate(h: Handle, body: int)
    | Settle(h: Handle)
    | Forget(h: Handle)
    | Hear(ind: Packet)
    | Stutter

  predicate InPhase(reg: map<Handle, Proc>, h: Handle, p: Phase) {
    h in reg && reg[h].phase == p
  }

  predicate Enabled(s: State, st: Step) {
    match st
    case Start(h, issue) => h !in s.hist && issue.kind != SubscriptionDelete
    case AskDelete(h) => InPhase(s.reg, h, Active)
    case Serve(h, ok, out) =>
      && h in s.channel && PossibleAnswer(s.channel[h], ok, out)
      && (s.channel[h].kind == SubscriptionDelete ==> h in s.timers)
    case Indicate(h, _) => h in s.timers
    case Settle(h) => h in s.channel && s.channel[h].Ans? && InPhase(s.reg, h, Waiting(s.channel[h].kind))
    case Forget(h) => InPhase(s.reg, h, Answered)
    case Hear(ind) => ind in s.inds && ind.Ind?
    case Stutter => true
  }

  function ServedTimers(timers: set<Handle>, h: Handle, kind: Kind): set<Handle> {
    match kind
    case Subscription => timers + {h}
    case SubscriptionDelete => timers - {h}
    case Control => timers
  }

  function WithPhase(reg: map<Handle, Proc>, h: Handle, p: Phase): map<Handle, Proc>
    requires h in reg
  {
    reg[h := reg[h].(phase := p)]
  }

  /** The answer an agent gives, as the xApp will see it. */
  function AnswerTo(req: Packet, ok: bool, out: int): Packet
    requires req.Req?
  {
    Relayed(Ans(req.kind, req.id, ok, out))
  }

  function Apply(s: State, st: Step): State
    requires Enabled(s, st)
  {
    match st
    case Start(h, issue) =>
      s.(reg := s.reg[h := Proc(issue, Waiting(issue.kind))],
         hist := s.hist[h := issue],
         channel := s.channel[h := Req(issue.kind, h, issue.body)])
    case AskDelete(h) =>
      s.(reg := WithPhase(s.reg, h, Waiting(SubscriptionDelete)),
         channel := s.channel[h := Req(SubscriptionDelete, h, 0)])
    case Serve(h, ok, out) =>
      s.(timers := ServedTimers(s.timers, h, s.channel[h].kind),
         channel := s.channel[h := AnswerTo(s.channel[h], ok, out)])
    case Indicate(h, body) =>
      s.(inds := s.inds + multiset{Ind(h, body)}, made := s.made + multiset{Ind(h, body)})
    case Settle(h) =>
      s.(reg := WithPhase(s.reg, h, Settled(s.channel[h].kind)), channel := s.channel - {h})
    case Forget(h) => s.(reg := s.reg - {h})
    case Hear(ind) =>
      if ind.id in s.reg
      then s.(inds := s.inds - multiset{ind}, heard := s.heard + multiset{ind})
      else s.(inds := s.inds - multiset{ind}, dropped := s.dropped + multiset{ind})
    case Stutter => s
  }

  ghost predicate Initial(s: State) {
    && s.reg == map[] && s.hist == map[] && s.channel == map[] && s.timers == {}
    && s.inds == s.made == s.heard == s.dropped == multiset{}
  }

  ghost predicate Follows(run: seq<State>, steps: seq<Step>, i: nat)
    requires i < |steps| < |run|
  {
    Enabled(run[i], steps[i]) && run[i + 1] == Apply(run[i], steps[i])
  }

  ghost predicate IsRun(run: seq<State>, steps: seq<Step>) {
    |run| == |steps| + 1 && Initial(run[0]) && forall i: nat :: i < |steps| ==> Follows(run, steps, i)
  }

  // ---------------------------------------------------------------- invariant

  ghost predicate RegOk(reg: map<Handle, Proc>, hist: map<Handle, Issue>) {
    && (forall h :: h in hist ==> hist[h].kind != SubscriptionDelete)
    && (forall h :: h in reg ==>
          h in hist && reg[h].issue == hist[h] && PhaseOk(hist[h].kind, reg[h].phase))
  }

  /** The request a waiting call has sent. */
  function RequestOf(reg: map<Handle, Proc>, h: Handle): Packet
    requires h in reg && reg[h].phase.Waiting?
  {
    Req(reg[h].phase.kind, h, RequestBody(reg[h].issue, reg[h].phase.kind))
  }

  /** A call waits exactly as long as its request or its answer is in flight: no
      request is lost, none is answered twice, and no answer comes unasked. */
  ghost predicate ChannelOk(reg: map<Handle, Proc>, channel: map<Handle, Packet>) {
    && (forall h :: h in channel <==> h in reg && reg[h].phase.Waiting?)
    && (forall h :: h in channel ==>
          if channel[h].Req? then channel[h] == RequestOf(reg, h)
          else channel[h].Ans? && channel[h].id == h && channel[h].kind == reg[h].phase.kind
               && channel[h] == Relayed(channel[h]))
  }

  /** When an agent serves a subscription: from the moment it takes the subscription
      request until it takes the delete request. */
  ghost predicate Served(reg: map<Handle, Proc>, channel: map<Handle, Packet>, h: Handle) {
    && h in reg && reg[h].issue.kind == Subscription
    && match reg[h].phase
       case Waiting(k) => h in channel && (k == Subscription) == channel[h].Ans?
       case Active => true
       case Answered => false
  }

  ghost predicate TimersOk(reg: map<Handle, Proc>, channel: map<Handle, Packet>, timers: set<Handle>) {
    forall h :: h in timers <==> Served(reg, channel, h)
  }

  ghost predicate IndsOk(hist: map<Handle, Issue>, inds: multiset<Packet>) {
    forall m :: m in inds ==> m.Ind? && m.id in hist && hist[m.id].kind == Subscription
  }

  /** Every indication produced is heard, dropped or still in flight, and nothing else is. */
  ghost predicate Conserved(s: State) {
    s.made == s.heard + s.dropped + s.inds
  }

  ghost predicate Inv(s: State) {
    && RegOk(s.reg, s.hist)
    && ChannelOk(s.reg, s.channel)
    && TimersOk(s.reg, s.channel, s.timers)
    && IndsOk(s.hist, s.inds)
    && Conserved(s)
  }

  lemma StepKeepsRegistry(s: State, st: Step)
    requires RegOk(s.reg, s.hist) && ChannelOk(s.reg, s.channel) && Enabled(s, st)
    ensures var t := Apply(s, st); RegOk(t.reg, t.hist)
  {
  }

  /** The steps of a call itself. */
  predicate OfCall(st: Step) {
    st.Start? || st.AskDelete? || st.Settle?
  }

  lemma CallKeepsChannel(s: State, st: Step)
    requires RegOk(s.reg, s.hist) && ChannelOk(s.reg, s.channel) && Enabled(s, st)
    requires st.Start? || st.AskDelete?
    ensures var t := Apply(s, st); ChannelOk(t.reg, t.channel)
  {
  }

  lemma SettleKeepsChannel(s: State, h: Handle)
    requires RegOk(s.reg, s.hist) && ChannelOk(s.reg, s.channel) && Enabled(s, Settle(h))
    ensures var t := Apply(s, Settle(h)); ChannelOk(t.reg, t.channel)
  {
  }

  lemma RestKeepsChannel(s: State, st: Step)
    requires RegOk(s.reg, s.hist) && ChannelOk(s.reg, s.channel) && Enabled(s, st) && !OfCall(st)
    ensures var t := Apply(s, st); ChannelOk(t.reg, t.channel)
  {
  }

  lemma StepKeepsChannel(s: State, st: Step)
    requires RegOk(s.reg, s.hist) && ChannelOk(s.reg, s.channel) && Enabled(s, st)
    ensures var t := Apply(s, st); ChannelOk(t.reg, t.channel)
  {
    if st.Start? || st.AskDelete? {
      CallKeepsChannel(s, st);
    } else if st.Settle? {
      SettleKeepsChannel(s, st.h);
    } else {
      RestKeepsChannel(s, st);
    }
  }

  lemma CallKeepsTimers(s: State, st: Step)
    requires RegOk(s.reg, s.hist) && ChannelOk(s.reg, s.channel) && TimersOk(s.reg, s.channel, s.timers)
    requires Enabled(s, st) && (st.Start? || st.AskDelete?)
    ensures var t := Apply(s, st); TimersOk(t.reg, t.channel, t.timers)
  {
  }

  lemma SettleKeepsTimers(s: State, h: Handle)
    requires RegOk(s.reg, s.hist) && ChannelOk(s.reg, s.channel) && TimersOk(s.reg, s.channel, s.timers)
    requires Enabled(s, Settle(h))
    ensures var t := Apply(s, Settle(h)); TimersOk(t.reg, t.channel, t.timers)
  {
  }

  lemma ServeKeepsTimers(s: State, h: Handle, ok: bool, out: int)
    requires RegOk(s.reg, s.hist) && ChannelOk(s.reg, s.channel) && TimersOk(s.reg, s.channel, s.timers)
    requires Enabled(s, Serve(h, ok, out))
    ensures var t := Apply(s, Serve(h, ok, out)); TimersOk(t.reg, t.channel, t.timers)
  {
  }

  lemma RestKeepsTimers(s: State, st: Step)
    requires TimersOk(s.reg, s.channel, s.timers) && Enabled(s, st) && !OfCall(st) && !st.Serve?
    ensures var t := Apply(s, st); TimersOk(t.reg, t.channel, t.timers)
  {
  }

  lemma StepKeepsTimers(s: State, st: Step)
    requires RegOk(s.reg, s.hist) && ChannelOk(s.reg, s.channel) && TimersOk(s.reg, s.channel, s.timers)
    requires Enabled(s, st)
    ensures var t := Apply(s, st); TimersOk(t.reg, t.channel, t.timers)
  {
    if st.Start? || st.AskDelete? {
      CallKeepsTimers(s, st);
    } else if st.Settle? {
      SettleKeepsTimers(s, st.h);
    } else if st.Serve? {
      ServeKeepsTimers(s, st.h, st.ok, st.out);
    } else {
      RestKeepsTimers(s, st);
    }
  }

  lemma StepKeepsIndications(s: State, st: Step)
    requires Inv(s) && Enabled(s, st)
    ensures var t := Apply(s, st); IndsOk(t.hist, t.inds)
  {
  }

  lemma StepConserves(s: State, st: Step)
    requires Conserved(s) && Enabled(s, st)
    ensures Conserved(Apply(s, st))
  {
    if st.Hear? {
      assert s.inds == s.inds - multiset{st.ind} + multiset{st.ind};
    }
  }

  lemma StepKeepsInv(s: State, st: Step)
    requires Inv(s) && Enabled(s, st)
    ensures Inv(Apply(s, st))
  {
    StepKeepsRegistry(s, st);
    StepKeepsChannel(s, st);
    StepKeepsTimers(s, st);
    StepKeepsIndications(s, st);
    StepConserves(s, st);
  }

  // ---------------------------------------------------------------- the end of a subscription

  /** The agent took the delete request: it serves the call no more, and never will. */
  ghost predicate Ended(s: State, h: Handle) {
    && h in s.hist && h !in s.timers
    && (h in s.reg ==> s.reg[h].phase == Answered || (s.reg[h].phase == Waiting(SubscriptionDelete)
                                                      && h in s.channel && s.channel[h].Ans?))
  }

  lemma EndedStays(s: State, st: Step, h: Handle)
    requires RegOk(s.reg, s.hist) && ChannelOk(s.reg, s.channel) && Enabled(s, st) && Ended(s, h)
    ensures Ended(Apply(s, st), h)
    ensures forall body :: Apply(s, st).made[Ind(h, body)] == s.made[Ind(h, body)]
  {
  }

  lemma DeleteEnds(s: State, h: Handle, out: int)
    requires Inv(s) && Enabled(s, Serve(h, true, out)) && s.channel[h].kind == SubscriptionDelete
    ensures Ended(Apply(s, Serve(h, true, out)), h)
  {
  }
}
