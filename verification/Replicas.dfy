// What the xApps' copies of the node registry hold over whole runs, and when they are
// current (src/xApp/msg_handler_xapp.c, src/ric/iApp/msg_handler_iapp.c).
module Replicas {
  import opened Ids
  import opened RegE2Nodes
  import opened Replication

  // ------------------------------------------------------------ what an xApp holds

  /** The nodes of the last update among the messages. */
  function LastUpdate(msgs: seq<Msg>): Registry {
    if msgs == [] then NO_NODES
    else if msgs[|msgs| - 1].Update? then msgs[|msgs| - 1].nodes
    else LastUpdate(msgs[..|msgs| - 1])
  }

  function Responses(msgs: seq<Msg>): nat {
    if msgs == [] then 0
    else Responses(msgs[..|msgs| - 1]) + if msgs[|msgs| - 1].SetupResponse? then 1 else 0
  }

  /** The registry of an xApp that handled these messages. */
  function Replayed(msgs: seq<Msg>): Registry {
    if msgs == [] then NO_NODES
    else if msgs[|msgs| - 1].Update? then msgs[|msgs| - 1].nodes
    else LastUpdate(msgs[..|msgs| - 1]) + msgs[|msgs| - 1].nodes
  }

  ghost predicate XAppOk(x: XApp) {
    && x.handled <= |x.sent|
    && x.nodes == Replayed(x.sent[..x.handled])
    && Responses(x.sent[..x.handled]) == (if x.connected then 1 else 0)
  }

  ghost predicate XAppsOk(xapps: map<nat, XApp>) {
    forall x :: x in xapps ==> XAppOk(xapps[x])
  }

  lemma {:induction false} NoResponseReplay(msgs: seq<Msg>)
    requires Responses(msgs) == 0
    ensures Replayed(msgs) == LastUpdate(msgs)
  {
  }

  lemma PostKeepsXApp(x: XApp, m: Msg)
    requires XAppOk(x)
    ensures XAppOk(x.(sent := x.sent + [m]))
  {
    assert (x.sent + [m])[..x.handled] == x.sent[..x.handled];
  }

  lemma ReceiveKeepsXApp(x: XApp)
    requires XAppOk(x) && HasMessage(x) && AssertHolds(x, NextMsg(x))
    ensures XAppOk(Handled(x, NextMsg(x)))
  {
    var before, after := x.sent[..x.handled], x.sent[..x.handled + 1];
    assert after[..|after| - 1] == before && after[|after| - 1] == NextMsg(x);
    if NextMsg(x).SetupResponse? {
      NoResponseReplay(before);
    }
  }

  lemma PostKeepsXApps(xapps: map<nat, XApp>, x: nat, m: Msg)
    requires XAppsOk(xapps) && x in xapps
    ensures XAppsOk(Posted(xapps, x, m))
  {
    PostKeepsXApp(xapps[x], m);
  }

  lemma StepKeepsXApps(s: State, st: Step)
    requires XAppsOk(s.xapps) && Enabled(s, st)
    ensures XAppsOk(Apply(s, st).xapps)
  {
    match st {
      case SendResponse => PostKeepsXApps(s.xapps, s.pc.peer, SetupResponse(s.pc.version, s.pc.nodes));
      case SendNext(w) =>
        var b := Running(s, w);
        PostKeepsXApps(s.xapps, s.socks[b.next], Update(b.version, b.nodes));
      case Receive(x) => ReceiveKeepsXApp(s.xapps[x]);
      case _ =>
    }
  }

  lemma {:induction false} RunKeepsXApps(run: seq<State>, steps: seq<Step>, n: nat)
    requires IsRun(run, steps) && n < |run|
    ensures XAppsOk(run[n].xapps)
  {
    if n == 0 {
    } else {
      RunKeepsXApps(run, steps, n - 1);
      assert Follows(run, steps, n - 1);
      StepKeepsXApps(run[n - 1], steps[n - 1]);
    }
  }

  /** A setup response is survived exactly if it is the xApp's first and no update was
      queued before it, or the last such update shares no node with it. */
  lemma ResponseSurvivesIff(run: seq<State>, steps: seq<Step>, n: nat, id: nat)
    requires IsRun(run, steps) && n < |run| && id in run[n].xapps
    requires HasMessage(run[n].xapps[id]) && NextMsg(run[n].xapps[id]).SetupResponse?
    ensures var x := run[n].xapps[id];
            var before := x.sent[..x.handled];
            AssertHolds(x, NextMsg(x))
            <==> Responses(before) == 0 && forall n :: n in NextMsg(x).nodes ==> n !in LastUpdate(before)
  {
    RunKeepsXApps(run, steps, n);
    var x := run[n].xapps[id];
    assert XAppOk(x);
    if Responses(x.sent[..x.handled]) == 0 {
      NoResponseReplay(x.sent[..x.handled]);
    }
  }

  /** What an xApp holds after any run: the nodes of the update it handled last; or, if that
      was its response, the response's beside those of the last update before it. */
  lemma ReplicaIs(run: seq<State>, steps: seq<Step>, n: nat, id: nat)
    requires IsRun(run, steps) && n < |run| && id in run[n].xapps && run[n].xapps[id].handled > 0
    ensures var x := run[n].xapps[id];
            && x.handled <= |x.sent|
            && var last := x.sent[x.handled - 1];
               x.nodes == if last.Update? then last.nodes else LastUpdate(x.sent[..x.handled - 1]) + last.nodes
  {
    RunKeepsXApps(run, steps, n);
    var x := run[n].xapps[id];
    assert XAppOk(x);
    assert x.sent[..x.handled][..x.handled - 1] == x.sent[..x.handled - 1];
  }

  // ------------------------------------------------------------ when replicas are current

  /** A message carries the registry of the version it names. */
  ghost predicate Genuine(log: seq<Registry>, version: nat, nodes: Registry) {
    version < |log| && nodes == log[version]
  }

  ghost predicate MsgsGenuine(log: seq<Registry>, sent: seq<Msg>) {
    forall i :: 0 <= i < |sent| ==> Genuine(log, sent[i].version, sent[i].nodes)
  }

  ghost predicate BroadcastGenuine(log: seq<Registry>, b: Broadcast) {
    b.Sending? ==> Genuine(log, b.version, b.nodes)
  }

  ghost predicate AllGenuine(log: seq<Registry>, xapps: map<nat, XApp>) {
    forall x :: x in xapps ==> MsgsGenuine(log, xapps[x].sent)
  }

  ghost predicate StampsOk(s: State) {
    && (!s.pc.Listening? ==> Genuine(s.log, s.pc.version, s.pc.nodes))
    && BroadcastGenuine(s.log, s.setup) && BroadcastGenuine(s.log, s.shutdown)
    && AllGenuine(s.log, s.xapps)
  }

  ghost predicate CountsOk(xapps: map<nat, XApp>, answered: multiset<nat>) {
    forall x :: answered[x] == if x in xapps then Responses(xapps[x].sent) else 0
  }

  /** Each registered id but the one in the iApp thread's hands belongs to an xApp that was
      answered. */
  ghost predicate SocksOk(socks: map<nat, nat>, answered: multiset<nat>, pc: Pc) {
    forall id :: id in socks ==> answered[socks[id]] > 0 || (pc.SockKnown? && pc.id == id)
  }

  /** No two registered ids belong to one xApp that was answered at most once, but for the
      one in the iApp thread's hands. */
  ghost predicate UniqueOk(socks: map<nat, nat>, answered: multiset<nat>, pc: Pc) {
    forall i, j :: i in socks && j in socks && i != j && socks[i] == socks[j] ==>
      answered[socks[i]] > 1 || (pc.SockKnown? && (pc.id == i || pc.id == j))
  }

  /** While an undisturbed setup is handled the registry rests. */
  ghost predicate WindowOk(pc: Pc, disturbed: set<nat>, busy: bool, versions: nat) {
    !pc.Listening? && pc.peer !in disturbed ==> !busy && pc.version == versions - 1
  }

  /** The version of the newest message sent. */
  function Newest(x: XApp): int {
    if x.sent == [] then -1 else x.sent[|x.sent| - 1].version
  }

  ghost predicate Ascending(sent: seq<Msg>) {
    forall i, j :: 0 <= i < j < |sent| ==> sent[i].version <= sent[j].version
  }

  /** The broadcast has yet to send to this id. */
  predicate Pending(b: Broadcast, id: nat) {
    b.Sending? && b.next <= id < FIRST_XAPP_ID + b.num
  }

  /** No update comes before an undisturbed xApp's response. */
  ghost predicate FirstOk(xapps: map<nat, XApp>, disturbed: set<nat>) {
    forall x :: x in xapps && x !in disturbed && xapps[x].sent != [] ==> xapps[x].sent[0].SetupResponse?
  }

  predicate LastIsUpdate(x: XApp) {
    x.sent != [] && x.sent[|x.sent| - 1].Update?
  }

  ghost predicate OneSends(s: State) {
    !(s.setup.Sending? && s.shutdown.Sending?)
  }

  predicate FirstIsResponse(x: XApp) {
    x.sent != [] && x.sent[0].SetupResponse?
  }

  ghost predicate OrderOk(xapps: map<nat, XApp>, answered: multiset<nat>) {
    forall x :: x in xapps && answered[x] <= 1 && FirstIsResponse(xapps[x]) ==> Ascending(xapps[x].sent)
  }

  /** What a broadcast has yet to send to an id is not older than what its xApp was sent, or
      will be sent as its response, unless the xApp is answered twice. */
  ghost predicate AheadAt(s: State, w: Who, id: nat) {
    var b := Running(s, w);
    Pending(b, id) && id in s.socks && s.socks[id] in s.xapps && s.answered[s.socks[id]] <= 1 ==>
      && Newest(s.xapps[s.socks[id]]) <= b.version
      && (s.pc.SockKnown? && s.pc.id == id ==> s.pc.version <= b.version)
  }

  ghost predicate AheadOk(s: State, w: Who) {
    forall id: nat :: AheadAt(s, w, id)
  }

  /** A broadcast that has not begun, or that will send this id the current registry. */
  predicate Coming(s: State, id: nat) {
    || s.due != {} || s.setup.Due? || s.shutdown.Due?
    || Reaches(s.setup, id, |s.log|) || Reaches(s.shutdown, id, |s.log|)
  }

  predicate Reaches(b: Broadcast, id: nat, versions: nat) {
    (b.Counted? && id < FIRST_XAPP_ID + b.num) || (Pending(b, id) && b.version == versions - 1)
  }

  /** A broadcast that is outdated by now is followed by another, to each id it counted. */
  ghost predicate BehindAt(s: State, w: Who, id: nat) {
    var b := Running(s, w);
    b.Sending? && id in s.socks && id < FIRST_XAPP_ID + b.num ==> b.version == |s.log| - 1 || Coming(s, id)
  }

  ghost predicate BehindOk(s: State, w: Who) {
    forall id: nat :: BehindAt(s, w, id)
  }

  /** The xApp got an update after its only response, or its setup was not disturbed. */
  predicate Told(s: State, x: nat)
    requires x in s.xapps
  {
    s.answered[x] == 1 && (LastIsUpdate(s.xapps[x]) || x !in s.disturbed)
  }

  /** The newest message to such an xApp is the current registry, or a broadcast of it is
      coming. */
  ghost predicate FreshAt(s: State, id: nat) {
    id in s.socks && s.socks[id] in s.xapps && Told(s, s.socks[id]) && !(s.pc.SockKnown? && s.pc.id == id) ==>
      Newest(s.xapps[s.socks[id]]) == |s.log| - 1 || Coming(s, id)
  }

  ghost predicate FreshOk(s: State) {
    forall id: nat :: FreshAt(s, id)
  }

  ghost predicate SetupsOk(s: State) {
    && IdsOk(s) && StampsOk(s) && CountsOk(s.xapps, s.answered)
    && SocksOk(s.socks, s.answered, s.pc) && UniqueOk(s.socks, s.answered, s.pc)
    && WindowOk(s.pc, s.disturbed, Busy(s), |s.log|) && FirstOk(s.xapps, s.disturbed)
  }

  ghost predicate BroadcastsOk(s: State) {
    && OneSends(s) && OrderOk(s.xapps, s.answered)
    && AheadOk(s, Setup) && AheadOk(s, Shutdown) && BehindOk(s, Setup) && BehindOk(s, Shutdown) && FreshOk(s)
  }

  ghost predicate Inv(s: State) {
    SetupsOk(s) && (!s.crossed ==> BroadcastsOk(s))
  }

  // ------------------------------------------------------------ every step keeps it

  lemma {:induction false} ResponsesAfter(sent: seq<Msg>, m: Msg)
    ensures Responses(sent + [m]) == Responses(sent) + if m.SetupResponse? then 1 else 0
  {
    assert (sent + [m])[..|sent|] == sent;
  }

  /** Which xApp a step sends to. */
  predicate SendsToXApp(s: State, st: Step, x: nat)
    requires Enabled(s, st)
  {
    match st
    case SendResponse => s.pc.peer == x
    case SendNext(w) => s.socks[Running(s, w).next] == x
    case _ => false
  }

  function SentMsg(s: State, st: Step): Msg
    requires Enabled(s, st) && (st.SendResponse? || st.SendNext?)
  {
    if st.SendResponse? then SetupResponse(s.pc.version, s.pc.nodes)
    else Update(Running(s, st.w).version, Running(s, st.w).nodes)
  }

  /** All a step can do to what was sent to one xApp. */
  lemma SentAfter(s: State, st: Step, x: nat)
    requires Enabled(s, st) && x in Apply(s, st).xapps
    ensures var t := Apply(s, st);
            t.xapps[x].sent == if SendsToXApp(s, st, x) then s.xapps[x].sent + [SentMsg(s, st)]
                               else if x in s.xapps then s.xapps[x].sent else []
  {
  }

  lemma LogGrows(s: State, st: Step)
    requires Enabled(s, st)
    ensures s.log <= Apply(s, st).log
  {
  }

  lemma SentIsGenuine(s: State, st: Step)
    requires StampsOk(s) && Enabled(s, st) && (st.SendResponse? || st.SendNext?)
    ensures Genuine(s.log, SentMsg(s, st).version, SentMsg(s, st).nodes)
  {
    if st.SendNext? {
      assert BroadcastGenuine(s.log, Running(s, st.w));
    }
  }

  lemma GenuineAfter(log: seq<Registry>, more: seq<Registry>, sent: seq<Msg>, m: Msg)
    requires log <= more && MsgsGenuine(log, sent)
    ensures MsgsGenuine(more, sent)
    ensures Genuine(log, m.version, m.nodes) ==> MsgsGenuine(more, sent + [m])
  {
  }

  lemma StepKeepsGenuine(s: State, st: Step)
    requires StampsOk(s) && Enabled(s, st)
    ensures AllGenuine(Apply(s, st).log, Apply(s, st).xapps)
  {
    var t := Apply(s, st);
    LogGrows(s, st);
    forall x | x in t.xapps ensures MsgsGenuine(t.log, t.xapps[x].sent) {
      SentAfter(s, st, x);
      if SendsToXApp(s, st, x) {
        SentIsGenuine(s, st);
        GenuineAfter(s.log, t.log, s.xapps[x].sent, SentMsg(s, st));
      } else if x in s.xapps {
        GenuineAfter(s.log, t.log, s.xapps[x].sent, SetupResponse(0, NO_NODES));
      }
    }
  }

  lemma StepKeepsStamps(s: State, st: Step)
    requires StampsOk(s) && Enabled(s, st)
    ensures StampsOk(Apply(s, st))
  {
    StepKeepsGenuine(s, st);
    LogGrows(s, st);
    ThreadIsGenuine(s, st);
    BroadcastIsGenuine(s, st, Setup);
    BroadcastIsGenuine(s, st, Shutdown);
  }

  lemma ThreadIsGenuine(s: State, st: Step)
    requires StampsOk(s) && Enabled(s, st) && s.log <= Apply(s, st).log
    ensures var t := Apply(s, st); !t.pc.Listening? ==> Genuine(t.log, t.pc.version, t.pc.nodes)
  {
  }

  lemma BroadcastIsGenuine(s: State, st: Step, w: Who)
    requires s.log != [] && BroadcastGenuine(s.log, Running(s, w)) && Enabled(s, st) && s.log <= Apply(s, st).log
    ensures BroadcastGenuine(Apply(s, st).log, Running(Apply(s, st), w))
  {
    if st != Snapshot(w) && Running(Apply(s, st), w).Sending? {
      SnapshotStays(s, st, w);
    }
  }

  lemma SnapshotStays(s: State, st: Step, w: Who)
    requires Enabled(s, st) && st != Snapshot(w) && Running(Apply(s, st), w).Sending?
    ensures var b, c := Running(s, w), Running(Apply(s, st), w);
            b.Sending? && c.version == b.version && c.nodes == b.nodes
  {
  }

  lemma ResponseKeepsCounts(s: State)
    requires CountsOk(s.xapps, s.answered) && Enabled(s, SendResponse)
    ensures CountsOk(Apply(s, SendResponse).xapps, Apply(s, SendResponse).answered)
  {
    ResponsesAfter(s.xapps[s.pc.peer].sent, SetupResponse(s.pc.version, s.pc.nodes));
  }

  lemma SendKeepsCounts(s: State, w: Who)
    requires CountsOk(s.xapps, s.answered) && Enabled(s, SendNext(w))
    ensures CountsOk(Apply(s, SendNext(w)).xapps, s.answered)
  {
    var b := Running(s, w);
    ResponsesAfter(s.xapps[s.socks[b.next]].sent, Update(b.version, b.nodes));
  }

  lemma StepKeepsCounts(s: State, st: Step)
    requires CountsOk(s.xapps, s.answered) && Enabled(s, st)
    ensures CountsOk(Apply(s, st).xapps, Apply(s, st).answered)
  {
    match st {
      case SendResponse => ResponseKeepsCounts(s);
      case SendNext(w) => SendKeepsCounts(s, w);
      case _ =>
    }
  }

  /** Ids and answers are the iApp thread's business. */
  lemma OthersKeepIds(s: State, st: Step)
    requires Enabled(s, st) && !st.TakeSnapshot? && !st.RegisterSock? && !st.SendResponse?
    ensures var t := Apply(s, st); t.socks == s.socks && t.answered == s.answered && t.pc == s.pc
  {
  }

  lemma StepKeepsSocks(s: State, st: Step)
    requires IdsOk(s) && SocksOk(s.socks, s.answered, s.pc) && Enabled(s, st)
    ensures var t := Apply(s, st); SocksOk(t.socks, t.answered, t.pc)
  {
    if st.TakeSnapshot? || st.RegisterSock? || st.SendResponse? {
      ThreadKeepsSocks(s, st);
    } else {
      OthersKeepIds(s, st);
    }
  }

  lemma ThreadKeepsSocks(s: State, st: Step)
    requires IdsOk(s) && SocksOk(s.socks, s.answered, s.pc) && Enabled(s, st)
    requires st.TakeSnapshot? || st.RegisterSock? || st.SendResponse?
    ensures var t := Apply(s, st); SocksOk(t.socks, t.answered, t.pc)
  {
  }

  lemma StepKeepsUnique(s: State, st: Step)
    requires IdsOk(s) && SocksOk(s.socks, s.answered, s.pc) && UniqueOk(s.socks, s.answered, s.pc) && Enabled(s, st)
    ensures var t := Apply(s, st); UniqueOk(t.socks, t.answered, t.pc)
  {
    if st.TakeSnapshot? || st.RegisterSock? || st.SendResponse? {
      ThreadKeepsUnique(s, st);
    } else {
      OthersKeepIds(s, st);
    }
  }

  lemma ThreadKeepsUnique(s: State, st: Step)
    requires IdsOk(s) && SocksOk(s.socks, s.answered, s.pc) && UniqueOk(s.socks, s.answered, s.pc) && Enabled(s, st)
    requires st.TakeSnapshot? || st.RegisterSock? || st.SendResponse?
    ensures var t := Apply(s, st); UniqueOk(t.socks, t.answered, t.pc)
  {
  }

  lemma ChangeKeepsWindow(s: State, st: Step)
    requires Enabled(s, st) && (st.NodeUp? || st.NodeDown?)
    ensures var t := Apply(s, st); WindowOk(t.pc, t.disturbed, Busy(t), |t.log|)
  {
  }

  lemma RestKeepsLog(s: State, st: Step)
    requires Enabled(s, st) && !st.NodeUp? && !st.NodeDown?
    ensures var t := Apply(s, st);
            && t.log == s.log && (st.TakeSnapshot? || t.disturbed == s.disturbed)
            && (t.pc.Listening? || st.TakeSnapshot?
                || (!s.pc.Listening? && t.pc.peer == s.pc.peer && t.pc.version == s.pc.version))
  {
  }

  /** Only a change of the registry starts a broadcast. */
  lemma BusyByChange(s: State, st: Step)
    requires Enabled(s, st) && !st.NodeUp? && !st.NodeDown? && !Busy(s)
    ensures !Busy(Apply(s, st))
  {
  }

  lemma StepKeepsWindow(s: State, st: Step)
    requires WindowOk(s.pc, s.disturbed, Busy(s), |s.log|) && Enabled(s, st)
    ensures var t := Apply(s, st); WindowOk(t.pc, t.disturbed, Busy(t), |t.log|)
  {
    if st.NodeUp? || st.NodeDown? {
      ChangeKeepsWindow(s, st);
    } else {
      RestKeepsLog(s, st);
      if !Busy(s) {
        BusyByChange(s, st);
      }
    }
  }

  lemma DisturbedGrows(s: State, st: Step)
    requires Enabled(s, st)
    ensures forall x :: x in s.disturbed ==> x in Apply(s, st).disturbed
  {
  }

  /** An update never reaches an undisturbed xApp that was not answered. */
  lemma UpdatesFollowAnswers(s: State, w: Who)
    requires SetupsOk(s) && Enabled(s, SendNext(w))
    requires s.socks[Running(s, w).next] !in s.disturbed
    ensures s.xapps[s.socks[Running(s, w).next]].sent != []
  {
  }

  lemma StepKeepsFirst(s: State, st: Step)
    requires SetupsOk(s) && Enabled(s, st)
    ensures FirstOk(Apply(s, st).xapps, Apply(s, st).disturbed)
  {
    var t := Apply(s, st);
    forall x | x in t.xapps && x !in t.disturbed && t.xapps[x].sent != [] ensures t.xapps[x].sent[0].SetupResponse? {
      SentAfter(s, st, x);
      DisturbedGrows(s, st);
      if st.SendNext? && SendsToXApp(s, st, x) {
        UpdatesFollowAnswers(s, st.w);
      }
    }
  }

  lemma NewestGenuine(log: seq<Registry>, x: XApp)
    requires MsgsGenuine(log, x.sent)
    ensures Newest(x) < |log|
  {
  }

  lemma StepKeepsOneSends(s: State, st: Step)
    requires OneSends(s) && Enabled(s, st) && !Apply(s, st).crossed
    ensures OneSends(Apply(s, st))
  {
  }

  lemma {:induction false} FirstResponseCounts(msgs: seq<Msg>)
    requires msgs != [] && msgs[0].SetupResponse?
    ensures Responses(msgs) >= 1 && (|msgs| > 1 && msgs[|msgs| - 1].SetupResponse? ==> Responses(msgs) >= 2)
  {
    if |msgs| == 1 {
    } else {
      FirstResponseCounts(msgs[..|msgs| - 1]);
    }
  }

  lemma AscendingAfter(sent: seq<Msg>, m: Msg)
    requires Ascending(sent) && (sent == [] || sent[|sent| - 1].version <= m.version)
    ensures Ascending(sent + [m])
  {
  }

  /** What is sent to an xApp that had its response is never older than what it was sent. */
  lemma SentIsNewer(s: State, st: Step, x: nat)
    requires SetupsOk(s) && AheadOk(s, Setup) && AheadOk(s, Shutdown) && Enabled(s, st) && SendsToXApp(s, st, x)
    requires x in s.xapps && FirstIsResponse(s.xapps[x]) && Apply(s, st).answered[x] <= 1
    ensures Newest(s.xapps[x]) <= SentMsg(s, st).version
  {
    FirstResponseCounts(s.xapps[x].sent);
    if st.SendNext? {
      assert AheadAt(s, st.w, Running(s, st.w).next);
    }
  }

  lemma StepKeepsOrder(s: State, st: Step)
    requires SetupsOk(s) && BroadcastsOk(s) && Enabled(s, st)
    ensures OrderOk(Apply(s, st).xapps, Apply(s, st).answered)
  {
    var t := Apply(s, st);
    forall x | x in t.xapps && t.answered[x] <= 1 && FirstIsResponse(t.xapps[x]) ensures Ascending(t.xapps[x].sent) {
      SentAfter(s, st, x);
      AnswersGrow(s, st, x);
      if SendsToXApp(s, st, x) {
        SentInOrder(s, st, x);
      }
    }
  }

  lemma SentInOrder(s: State, st: Step, x: nat)
    requires SetupsOk(s) && BroadcastsOk(s) && Enabled(s, st) && SendsToXApp(s, st, x) && x in s.xapps
    requires s.answered[x] <= Apply(s, st).answered[x] <= 1 && FirstIsResponse(Apply(s, st).xapps[x])
    ensures Ascending(s.xapps[x].sent + [SentMsg(s, st)])
  {
    if s.xapps[x].sent != [] {
      SentAfter(s, st, x);
      SentIsNewer(s, st, x);
      AscendingAfter(s.xapps[x].sent, SentMsg(s, st));
    }
  }

  lemma AnswersGrow(s: State, st: Step, x: nat)
    requires Enabled(s, st)
    ensures s.answered[x] <= Apply(s, st).answered[x]
  {
  }

  lemma SetupKeepsAhead(s: State, st: Step, w: Who, id: nat)
    requires SetupsOk(s) && Enabled(s, st) && AheadAt(s, w, id) && (st.Ask? || st.TakeSnapshot? || st.RegisterSock?)
    ensures AheadAt(Apply(s, st), w, id)
  {
  }

  lemma ResponseKeepsAhead(s: State, w: Who, id: nat)
    requires SetupsOk(s) && Enabled(s, SendResponse) && AheadAt(s, w, id)
    ensures AheadAt(Apply(s, SendResponse), w, id)
  {
  }

  lemma SnapshotKeepsAhead(s: State, v: Who, w: Who, id: nat)
    requires SetupsOk(s) && Enabled(s, Snapshot(v)) && AheadAt(s, w, id)
    ensures AheadAt(Apply(s, Snapshot(v)), w, id)
  {
    if id in s.socks {
      NewestGenuine(s.log, s.xapps[s.socks[id]]);
    }
  }

  lemma SendKeepsAhead(s: State, v: Who, w: Who, id: nat)
    requires IdsOk(s) && OneSends(s) && Enabled(s, SendNext(v)) && AheadAt(s, w, id)
    ensures AheadAt(Apply(s, SendNext(v)), w, id)
  {
  }

  lemma RestKeepsAhead(s: State, st: Step, w: Who, id: nat)
    requires Enabled(s, st) && AheadAt(s, w, id)
    requires st.NodeUp? || st.Append? || st.Erase? || st.NodeDown? || st.Count? || st.End? || st.Receive?
    ensures AheadAt(Apply(s, st), w, id)
  {
  }

  lemma StepKeepsAhead(s: State, st: Step, w: Who, id: nat)
    requires SetupsOk(s) && OneSends(s) && AheadAt(s, w, id) && Enabled(s, st)
    ensures AheadAt(Apply(s, st), w, id)
  {
    match st {
      case Ask(_) => SetupKeepsAhead(s, st, w, id);
      case TakeSnapshot(_) => SetupKeepsAhead(s, st, w, id);
      case RegisterSock => SetupKeepsAhead(s, st, w, id);
      case SendResponse => ResponseKeepsAhead(s, w, id);
      case Snapshot(v) => SnapshotKeepsAhead(s, v, w, id);
      case SendNext(v) => SendKeepsAhead(s, v, w, id);
      case _ => RestKeepsAhead(s, st, w, id);
    }
  }

  /** Whatever is coming for an id still is after a step, or the step brought it. */
  lemma ComingStays(s: State, st: Step, id: nat)
    requires IdsOk(s) && Enabled(s, st) && id in s.socks && Coming(s, id) && !st.SendNext?
    ensures Coming(Apply(s, st), id)
  {
    if st.Count? {
      ConsecutiveCount(s.socks.Keys, Joined(s));
      assert |s.socks| == |s.socks.Keys|;
    }
  }

  lemma ComingToOthers(s: State, w: Who, id: nat)
    requires Enabled(s, SendNext(w)) && Coming(s, id)
    requires id != Running(s, w).next || Running(s, w).version != |s.log| - 1
    ensures Coming(Apply(s, SendNext(w)), id)
  {
  }

  lemma ChangeIsComing(s: State, st: Step, id: nat)
    requires Enabled(s, st) && (st.NodeUp? || st.NodeDown?)
    ensures Coming(Apply(s, st), id)
  {
  }

  lemma SendKeepsBehind(s: State, v: Who, w: Who, id: nat)
    requires OneSends(s) && BehindAt(s, w, id) && Enabled(s, SendNext(v))
    ensures BehindAt(Apply(s, SendNext(v)), w, id)
  {
    if v == w && Coming(s, id) && Running(s, v).version != |s.log| - 1 {
      ComingToOthers(s, v, id);
    }
  }

  lemma SnapshotKeepsBehind(s: State, v: Who, w: Who, id: nat)
    requires IdsOk(s) && BehindAt(s, w, id) && Enabled(s, Snapshot(v)) && !Apply(s, Snapshot(v)).crossed
    ensures BehindAt(Apply(s, Snapshot(v)), w, id)
  {
  }

  lemma RestKeepsBehind(s: State, st: Step, w: Who, id: nat)
    requires IdsOk(s) && BehindAt(s, w, id) && Enabled(s, st)
    requires !st.SendNext? && !st.Snapshot? && !st.NodeUp? && !st.NodeDown?
    ensures BehindAt(Apply(s, st), w, id)
  {
    if id in s.socks && Coming(s, id) {
      ComingStays(s, st, id);
    }
  }

  lemma StepKeepsBehind(s: State, st: Step, w: Who, id: nat)
    requires IdsOk(s) && OneSends(s) && BehindAt(s, w, id) && Enabled(s, st) && !Apply(s, st).crossed
    ensures BehindAt(Apply(s, st), w, id)
  {
    match st {
      case NodeUp(_, _) => ChangeIsComing(s, st, id);
      case NodeDown(_) => ChangeIsComing(s, st, id);
      case SendNext(v) => SendKeepsBehind(s, v, w, id);
      case Snapshot(v) => SnapshotKeepsBehind(s, v, w, id);
      case _ => RestKeepsBehind(s, st, w, id);
    }
  }

  lemma ResponseKeepsFresh(s: State, id: nat)
    requires SetupsOk(s) && FreshAt(s, id) && Enabled(s, SendResponse)
    ensures FreshAt(Apply(s, SendResponse), id)
  {
    if id in s.socks && Coming(s, id) {
      ComingStays(s, SendResponse, id);
    }
  }

  /** An update to an xApp is the current registry, or another broadcast is coming for the
      id it was answered under. */
  lemma SendKeepsFresh(s: State, w: Who, id: nat)
    requires SetupsOk(s) && FreshAt(s, id) && BehindAt(s, w, id) && Enabled(s, SendNext(w))
    ensures FreshAt(Apply(s, SendNext(w)), id)
  {
    var next := Running(s, w).next;
    if id in s.socks && s.socks[id] == s.socks[next] {
      if Coming(s, id) && Running(s, w).version != |s.log| - 1 {
        ComingToOthers(s, w, id);
      }
    } else if id in s.socks && Coming(s, id) {
      ComingToOthers(s, w, id);
    }
  }

  lemma SetupKeepsFresh(s: State, st: Step, id: nat)
    requires SetupsOk(s) && FreshAt(s, id) && Enabled(s, st) && (st.Ask? || st.TakeSnapshot? || st.RegisterSock?)
    ensures FreshAt(Apply(s, st), id)
  {
    if id in s.socks && Coming(s, id) {
      ComingStays(s, st, id);
    }
  }

  /** What FreshAt says of an xApp's messages does not depend on the broadcasts. */
  lemma RestKeepsTold(s: State, st: Step)
    requires Enabled(s, st) && (st.Append? || st.Erase? || st.Count? || st.Snapshot? || st.End? || st.Receive?)
    ensures var t := Apply(s, st);
            && t.log == s.log && t.disturbed == s.disturbed && t.xapps.Keys == s.xapps.Keys
            && forall x :: x in s.xapps ==> t.xapps[x].sent == s.xapps[x].sent
  {
  }

  lemma RestKeepsFresh(s: State, st: Step, id: nat)
    requires SetupsOk(s) && FreshAt(s, id) && Enabled(s, st)
    requires st.Append? || st.Erase? || st.Count? || st.Snapshot? || st.End? || st.Receive?
    ensures FreshAt(Apply(s, st), id)
  {
    RestKeepsTold(s, st);
    OthersKeepIds(s, st);
    if id in s.socks && Coming(s, id) {
      ComingStays(s, st, id);
    }
  }

  lemma StepKeepsFresh(s: State, st: Step, id: nat)
    requires SetupsOk(s) && FreshAt(s, id) && BehindOk(s, Setup) && BehindOk(s, Shutdown) && Enabled(s, st)
    ensures FreshAt(Apply(s, st), id)
  {
    if st.NodeUp? || st.NodeDown? {
      ChangeIsComing(s, st, id);
    } else if st.SendResponse? {
      ResponseKeepsFresh(s, id);
    } else if st.SendNext? {
      assert BehindAt(s, st.w, id);
      SendKeepsFresh(s, st.w, id);
    } else if st.Ask? || st.TakeSnapshot? || st.RegisterSock? {
      SetupKeepsFresh(s, st, id);
    } else {
      RestKeepsFresh(s, st, id);
    }
  }

  lemma StepKeepsSetups(s: State, st: Step)
    requires SetupsOk(s) && Enabled(s, st)
    ensures SetupsOk(Apply(s, st))
  {
    StepKeepsIds(s, st);
    StepKeepsStamps(s, st);
    StepKeepsCounts(s, st);
    StepKeepsSocks(s, st);
    StepKeepsUnique(s, st);
    StepKeepsWindow(s, st);
    StepKeepsFirst(s, st);
  }

  lemma CrossedStays(s: State, st: Step)
    requires Enabled(s, st) && s.crossed
    ensures Apply(s, st).crossed
  {
  }

  lemma StepKeepsBroadcasts(s: State, st: Step)
    requires SetupsOk(s) && BroadcastsOk(s) && Enabled(s, st) && !Apply(s, st).crossed
    ensures BroadcastsOk(Apply(s, st))
  {
    var t := Apply(s, st);
    StepKeepsOneSends(s, st);
    StepKeepsOrder(s, st);
    StepKeepsPending(s, st, Setup);
    StepKeepsPending(s, st, Shutdown);
    forall id: nat ensures FreshAt(t, id) {
      assert FreshAt(s, id);
      StepKeepsFresh(s, st, id);
    }
  }

  lemma StepKeepsPending(s: State, st: Step, w: Who)
    requires SetupsOk(s) && OneSends(s) && AheadOk(s, w) && BehindOk(s, w) && Enabled(s, st) && !Apply(s, st).crossed
    ensures AheadOk(Apply(s, st), w) && BehindOk(Apply(s, st), w)
  {
    forall id: nat ensures AheadAt(Apply(s, st), w, id) && BehindAt(Apply(s, st), w, id) {
      assert AheadAt(s, w, id) && BehindAt(s, w, id);
      StepKeepsAhead(s, st, w, id);
      StepKeepsBehind(s, st, w, id);
    }
  }

  lemma StepKeepsInv(s: State, st: Step)
    requires Inv(s) && Enabled(s, st)
    ensures Inv(Apply(s, st))
  {
    StepKeepsSetups(s, st);
    if s.crossed {
      CrossedStays(s, st);
    } else if !Apply(s, st).crossed {
      StepKeepsBroadcasts(s, st);
    }
  }

  lemma {:induction false} RunKeepsInv(run: seq<State>, steps: seq<Step>, n: nat)
    requires IsRun(run, steps) && n < |run|
    ensures Inv(run[n])
  {
    if n == 0 {
    } else {
      RunKeepsInv(run, steps, n - 1);
      assert Follows(run, steps, n - 1);
      StepKeepsInv(run[n - 1], steps[n - 1]);
    }
  }

  // ------------------------------------------------------------ over whole runs

  /** Unless the registry was being changed or broadcast during its E42 setup, the first
      message an xApp is sent is its response. */
  lemma ResponseComesFirst(run: seq<State>, steps: seq<Step>, n: nat, x: nat)
    requires IsRun(run, steps) && n < |run| && x in run[n].xapps && x !in run[n].disturbed
    requires run[n].xapps[x].sent != []
    ensures FirstIsResponse(run[n].xapps[x])
  {
    RunKeepsInv(run, steps, n);
  }

  /** Replicas are snapshots: unless an update overtook its response, what an xApp holds is,
      at every moment, some value the iApp's registry had: the one its last message names. */
  lemma ReplicasAreSnapshots(run: seq<State>, steps: seq<Step>, n: nat, x: nat)
    requires IsRun(run, steps) && n < |run| && x in run[n].xapps && FirstIsResponse(run[n].xapps[x])
    requires run[n].xapps[x].handled > 0
    ensures var xapp := run[n].xapps[x];
            && xapp.handled <= |xapp.sent|
            && xapp.sent[xapp.handled - 1].version < |run[n].log|
            && xapp.nodes == run[n].log[xapp.sent[xapp.handled - 1].version]
  {
    RunKeepsInv(run, steps, n);
    RunKeepsXApps(run, steps, n);
    ReplicaIs(run, steps, n, x);
    var xapp := run[n].xapps[x];
    var seen := xapp.sent[..xapp.handled];
    assert XAppOk(xapp) && MsgsGenuine(run[n].log, xapp.sent);
    assert seen[0] == xapp.sent[0] && seen[|seen| - 1] == xapp.sent[xapp.handled - 1];
    FirstResponseCounts(seen);
    if xapp.sent[xapp.handled - 1].SetupResponse? {
      assert xapp.sent[..xapp.handled - 1] == [];
    }
  }

  /** Snapshots never go backwards: unless an update overtook its response, it was answered
      twice, or two broadcasts crossed, everything sent to an xApp, and so everything it
      comes to hold, is in the order of the registry's history. */
  lemma VersionsNeverGoBack(run: seq<State>, steps: seq<Step>, n: nat, x: nat)
    requires IsRun(run, steps) && n < |run| && x in run[n].xapps && FirstIsResponse(run[n].xapps[x])
    requires run[n].answered[x] == 1 && !run[n].crossed
    ensures Ascending(run[n].xapps[x].sent)
  {
    RunKeepsInv(run, steps, n);
  }

  /** The xApp is answered once and not in the iApp thread's hands, no broadcasts crossed and
      none is due or under way. */
  ghost predicate Calm(s: State, x: nat) {
    s.answered[x] == 1 && (s.pc.Listening? || s.pc.peer != x) && !s.crossed && !Busy(s)
  }

  /** An answered xApp has a registered id of its own. */
  ghost predicate HasId(s: State, x: nat) {
    exists id :: id in s.socks && s.socks[id] == x && !(s.pc.SockKnown? && s.pc.id == id)
  }

  lemma {:induction false} AnsweredHasId(run: seq<State>, steps: seq<Step>, n: nat, x: nat)
    requires IsRun(run, steps) && n < |run| && run[n].answered[x] > 0
    ensures HasId(run[n], x)
  {
    if n == 0 {
    } else {
      assert Follows(run, steps, n - 1);
      RunKeepsIds(run, steps, n - 1);
      if run[n - 1].answered[x] > 0 {
        AnsweredHasId(run, steps, n - 1, x);
      }
      StepKeepsId(run[n - 1], steps[n - 1], x);
    }
  }

  lemma StepKeepsId(s: State, st: Step, x: nat)
    requires IdsOk(s) && Enabled(s, st) && (s.answered[x] > 0 ==> HasId(s, x)) && Apply(s, st).answered[x] > 0
    ensures HasId(Apply(s, st), x)
  {
    var t := Apply(s, st);
    if !st.TakeSnapshot? && !st.RegisterSock? && !st.SendResponse? {
      OthersKeepIds(s, st);
    } else if s.answered[x] > 0 {
      var id :| id in s.socks && s.socks[id] == x && !(s.pc.SockKnown? && s.pc.id == id);
      assert id in t.socks && t.socks[id] == x;
    } else {
      assert s.pc.id in t.socks;
    }
  }

  lemma CalmMeansNewest(s: State, x: nat)
    requires Inv(s) && Calm(s, x) && HasId(s, x) && x in s.xapps && Told(s, x)
    ensures var xapp := s.xapps[x];
            xapp.sent != [] && Newest(xapp) == |s.log| - 1 && xapp.sent[|xapp.sent| - 1].nodes == Current(s)
  {
    var id :| id in s.socks && s.socks[id] == x && !(s.pc.SockKnown? && s.pc.id == id);
    assert FreshAt(s, id) && MsgsGenuine(s.log, s.xapps[x].sent);
    assert s.xapps[x].sent != [];
  }

  /** Replica consistency: in calm, an xApp that drained its channel holds the current
      registry exactly if an update came after its response, whatever else happened, or the
      response makes it up, together with the last update before it if there was one. */
  lemma DrainedIsCurrentIff(run: seq<State>, steps: seq<Step>, n: nat, x: nat)
    requires IsRun(run, steps) && n < |run| && Calm(run[n], x) && x in run[n].xapps && !HasMessage(run[n].xapps[x])
    ensures run[n].log != [] && run[n].xapps[x].sent != []
    ensures var xapp, last := run[n].xapps[x], |run[n].xapps[x].sent| - 1;
            xapp.nodes == Current(run[n])
            <==> LastIsUpdate(xapp) || LastUpdate(xapp.sent[..last]) + xapp.sent[last].nodes == Current(run[n])
  {
    var xapp := run[n].xapps[x];
    RunKeepsInv(run, steps, n);
    RunKeepsXApps(run, steps, n);
    assert XAppOk(xapp);
    ReplicaIs(run, steps, n, x);
    if LastIsUpdate(xapp) {
      AnsweredHasId(run, steps, n, x);
      CalmMeansNewest(run[n], x);
    }
  }

  /** In particular, in calm a drained xApp whose setup was not disturbed is current. */
  lemma UndisturbedIsCurrent(run: seq<State>, steps: seq<Step>, n: nat, x: nat)
    requires IsRun(run, steps) && n < |run| && Calm(run[n], x) && x in run[n].xapps && !HasMessage(run[n].xapps[x])
    requires x !in run[n].disturbed
    ensures run[n].log != [] && run[n].xapps[x].nodes == Current(run[n])
  {
    var xapp := run[n].xapps[x];
    DrainedIsCurrentIff(run, steps, n, x);
    RunKeepsInv(run, steps, n);
    AnsweredHasId(run, steps, n, x);
    CalmMeansNewest(run[n], x);
    if !LastIsUpdate(xapp) {
      ResponseComesFirst(run, steps, n, x);
      FirstResponseCounts(xapp.sent);
      assert xapp.sent[..|xapp.sent| - 1] == [];
    }
  }
}
