// The blocking calls of an xApp: one calling thread, the event loop that handles the
// answers, and what they share - the registry of active procedures, the pending timers
// (ordered by event kind alone) and the wait/signal flags. Each access to one of these
// under its mutex is one step (src/xApp/e42_xapp.c, msg_handler_xapp.c,
// pending_event_xapp.c, sync_ui.c, act_proc.c).
module XappCalls {
  import opened Ids
  import opened Procedures

  // ------------------------------------------------------------ active procedures

  datatype ActProcVal = ActProcVal(kind: Kind, id: RicGenId, callback: int, node: NodeId)

  /** The registry hands out keys that only grow, starting at 1. */
  class ActProc {
    var next: nat
    var entries: map<nat, ActProcVal>

    ghost predicate Valid()
      reads this
    {
      next >= 1 && forall k :: k in entries ==> 1 <= k < next
    }

    constructor ()
      ensures Valid() && entries == map[] && next == 1
    {
      next, entries := 1, map[];
    }

    /** The stored identifier does not know its own key yet. */
    method AddActProc(kind: Kind, ranFunc: nat, callback: int, node: NodeId) returns (key: nat)
      requires Valid()
      modifies this
      ensures Valid() && key == old(next) && next == old(next) + 1 && key !in old(entries)
      ensures entries == old(entries)[key := ActProcVal(kind, RicGenId(0, 0, ranFunc), callback, node)]
    {
      key := next;
      entries := entries[key := ActProcVal(kind, RicGenId(0, 0, ranFunc), callback, node)];
      next := next + 1;
    }

    method RmActProc(key: nat)
      requires Valid() && key in entries
      modifies this
      ensures Valid() && next == old(next) && entries == old(entries) - {key}
    {
      entries := entries - {key};
    }

    /** Rebuilds the full identifier from the key, in the entry and in the answer. */
    method FindActProc(key: nat) returns (v: Option<ActProcVal>)
      requires Valid()
      modifies this
      ensures Valid() && next == old(next) && (v.Some? <==> key in old(entries))
      ensures v.None? ==> entries == old(entries)
      ensures v.Some? ==> v.value == old(entries)[key].(id := old(entries)[key].id.(reqId := key))
                          && entries == old(entries)[key := v.value]
    {
      if key !in entries {
        return None;
      }
      var val := entries[key];
      val := val.(id := val.id.(reqId := key));
      entries := entries[key := val];
      v := Some(val);
    }
  }

  // ------------------------------------------------------------ pending timers

  /** What a timer was armed for. */
  datatype Timer = Timer(kind: Kind, id: RicGenId)

  /** The bi-map of pending events. The comparator of its right tree looks at the kind
      only, so that tree finds the descriptor by kind. */
  datatype Pending = Pending(left: map<int, Timer>, right: map<Kind, int>)

  const NOTHING_PENDING := Pending(map[], map[])

  function WithTimer(p: Pending, fd: int, t: Timer): Pending {
    Pending(p.left[fd := t], p.right[t.kind := fd])
  }

  function WithoutKind(p: Pending, kind: Kind): Pending
    requires kind in p.right
  {
    Pending(p.left - {p.right[kind]}, p.right - {kind})
  }

  /** Each descriptor is found under the kind it was armed for, and no other is. */
  ghost predicate TreesAgree(p: Pending) {
    && (forall f :: f in p.left ==> p.left[f].kind in p.right && p.right[p.left[f].kind] == f)
    && (forall k :: k in p.right ==> p.right[k] in p.left && p.left[p.right[k]].kind == k)
  }

  /** Closing the timer of a kind undoes arming it. */
  lemma DisarmUndoesArm(p: Pending, fd: int, t: Timer)
    requires TreesAgree(p) && fd !in p.left && t.kind !in p.right
    ensures TreesAgree(WithTimer(p, fd, t)) && WithoutKind(WithTimer(p, fd, t), t.kind) == p
  {
    var q := WithoutKind(WithTimer(p, fd, t), t.kind);
    assert q.left == p.left && q.right == p.right;
  }

  /** Closing the timer of one kind does not touch the timer of another. */
  lemma KindsAreIndependent(p: Pending, fd: int, t: Timer, kind: Kind)
    requires TreesAgree(p) && fd !in p.left && kind in p.right && kind != t.kind
    ensures TreesAgree(WithoutKind(p, kind))
    ensures WithoutKind(WithTimer(p, fd, t), kind) == WithTimer(WithoutKind(p, kind), fd, t)
  {
    var q := WithoutKind(WithTimer(p, fd, t), kind);
    var r := WithTimer(WithoutKind(p, kind), fd, t);
    assert q.left == r.left && q.right == r.right;
  }

  class PendingEvents {
    var left: map<int, Timer>
    var right: map<Kind, int>

    ghost function Model(): Pending
      reads this
    {
      Pending(left, right)
    }

    constructor ()
      ensures Model() == NOTHING_PENDING
    {
      left, right := map[], map[];
    }

    /** Arms a timer on a fresh descriptor. A second event of the kind would leave two
        entries in the right tree; NeverTwoPending shows there is none. */
    method AddPendingEvent(fd: int, t: Timer)
      requires TreesAgree(Model()) && fd > 0 && fd !in left && t.kind !in right
      modifies this
      ensures TreesAgree(Model()) && Model() == WithTimer(old(Model()), fd, t)
    {
      left := left[fd := t];
      right := right[t.kind := fd];
    }

    method RmPendingEventEv(t: Timer) returns (fd: int)
      requires TreesAgree(Model()) && t.kind in right
      modifies this
      ensures TreesAgree(Model())
      ensures fd in old(left) && old(left)[fd].kind == t.kind && Model() == WithoutKind(old(Model()), t.kind)
    {
      fd := right[t.kind];
      left := left - {fd};
      right := right - {t.kind};
    }
  }

  // ------------------------------------------------------------ wait and signal

  datatype Flags = Flags(raised: bool, ack: bool, error: bool, reason: string)

  const CLEARED := Flags(false, false, false, "")

  /** The answer to a request; only a control request can fail, with a reason. */
  datatype Answer = Answer(kind: Kind, id: RicGenId, ok: bool, reason: string)

  function FlagsOf(a: Answer): Flags {
    if a.ok then Flags(true, true, false, "") else Flags(true, false, true, a.reason)
  }

  class SyncUi {
    var flagSync: bool
    var msgAck: bool
    var msgError: bool
    var errorReason: string

    ghost function Model(): Flags
      reads this
    {
      Flags(flagSync, msgAck, msgError, errorReason)
    }

    constructor ()
      ensures Model() == CLEARED
    {
      flagSync, msgAck, msgError, errorReason := false, false, false, "";
    }

    /** The part of cond_wait_sync_ui before it sleeps: whatever was signalled is lost. */
    method BeginWait()
      modifies this
      ensures Model() == CLEARED
    {
      flagSync, msgAck, msgError, errorReason := false, false, false, "";
    }

    /** The part after it was woken with the flag set. */
    method EndWait() returns (ok: bool)
      requires flagSync
      ensures forall a :: Model() == FlagsOf(a) ==> ok == a.ok
    {
      ok := msgAck && !msgError;
    }

    method Signal()
      modifies this
      ensures forall a: Answer :: a.ok ==> Model() == FlagsOf(a)
    {
      flagSync, msgAck, msgError, errorReason := true, true, false, "";
    }

    method SignalError(reason: string)
      modifies this
      ensures forall a: Answer :: !a.ok && a.reason == reason ==> Model() == FlagsOf(a)
    {
      flagSync, msgAck, msgError, errorReason := true, false, true, reason;
    }

    /** A wait during which the answer is signalled. */
    method CondWaitSyncUi(a: Answer) returns (ok: bool)
      modifies this
      ensures ok == a.ok && Model() == FlagsOf(a)
    {
      BeginWait();
      if a.ok {
        Signal();
      } else {
        SignalError(a.reason);
      }
      ok := EndWait();
    }
  }

  // ------------------------------------------------------------ the two threads

  /** The calling thread. A subscription is armed before it is sent; a delete and a
      control request are sent before they are armed. */
  datatype Caller = Free | Registered | Armed | Sent | Ready | Waiting | Woken(ok: bool) | Stopped

  /** The event loop, inside the handler of an answer. */
  datatype Loop = Polling | Checked(a: Answer) | Disarmed(a: Answer)

  /** What a blocking call returned. */
  datatype Outcome = Outcome(call: nat, ok: bool, reason: string)

  /** `calls` numbers the calls and `kind`, `id` belong to the latest. `asked` says that its
      request is on the way or with the peer, `answer` is the answer on the way back, and
      `given` logs which answer the peer gave to which call. */
  datatype State = State(
    nextKey: nat, reg: map<nat, RicGenId>, calls: nat, kind: Kind, id: RicGenId, caller: Caller,
    pending: Pending, flags: Flags, asked: bool, answer: Option<Answer>, loop: Loop,
    given: map<nat, Answer>, outcomes: seq<Outcome>)

  datatype Step =
    | Begin(k: Kind, ranFunc: nat) | BeginDelete(key: nat) | Arm(fd: int) | Send | EnterWait | Wake | Return
    | Respond(ok: bool, reason: string) | Poll | Disarm | Signal
    | WaitTimeout | TimerExpires(fd: int)

  predicate Enabled(s: State, st: Step) {
    && s.caller != Stopped
    && match st
       case Begin(k, _) => s.caller.Free? && k != SubscriptionDelete
       case BeginDelete(key) => s.caller.Free? && key in s.reg
       case Arm(fd) =>
         && s.caller == (if s.kind == Subscription then Registered else Sent)
         && fd > 0 && fd !in s.pending.left
       case Send => s.caller == if s.kind == Subscription then Armed else Registered
       case EnterWait => s.caller.Ready?
       case Wake => s.caller.Waiting? && s.flags.raised
       case Return => s.caller.Woken?
       case Respond(ok, _) => s.asked && (s.kind != Control ==> ok)
       case Poll => s.loop.Polling? && s.answer.Some? && s.answer.value.id.reqId in s.reg
       case Disarm => s.loop.Checked? && s.loop.a.kind in s.pending.right
       case Signal => s.loop.Disarmed?
       case WaitTimeout => s.caller.Waiting?
       case TimerExpires(fd) => s.loop.Polling? && fd in s.pending.left
  }

  function Apply(s: State, st: Step): State
    requires Enabled(s, st)
  {
    match st
    case Begin(k, ranFunc) =>
      var id := RicGenId(s.nextKey, 0, ranFunc);
      s.(nextKey := s.nextKey + 1, reg := s.reg[s.nextKey := id], calls := s.calls + 1, kind := k, id := id,
         caller := Registered)
    case BeginDelete(key) =>
      s.(calls := s.calls + 1, kind := SubscriptionDelete, id := s.reg[key], caller := Registered)
    case Arm(fd) =>
      s.(pending := WithTimer(s.pending, fd, Timer(s.kind, s.id)),
         caller := if s.caller.Registered? then Armed else Ready)
    case Send => s.(asked := true, caller := if s.caller.Armed? then Ready else Sent)
    case EnterWait => s.(flags := CLEARED, caller := Caller.Waiting)
    case Wake => s.(caller := Woken(s.flags.ack && !s.flags.error))
    case Return =>
      s.(caller := Free, reg := if s.kind == Subscription then s.reg else s.reg - {s.id.reqId},
         outcomes := s.outcomes + [Outcome(s.calls, s.caller.ok, if s.caller.ok then "" else s.flags.reason)])
    case Respond(ok, reason) =>
      var a := Answer(s.kind, s.id, ok, reason);
      s.(asked := false, answer := Some(a), given := s.given[s.calls := a])
    case Poll => s.(answer := None, loop := Checked(s.answer.value))
    case Disarm => s.(pending := WithoutKind(s.pending, s.loop.a.kind), loop := Disarmed(s.loop.a))
    case Signal => s.(flags := FlagsOf(s.loop.a), loop := Polling)
    case WaitTimeout => s.(caller := Stopped)
    case TimerExpires(_) => s.(caller := Stopped)
  }

  ghost predicate Initial(s: State) {
    && s.nextKey == 1 && s.reg == map[] && s.calls == 0 && s.caller == Free && s.pending == NOTHING_PENDING
    && s.flags == CLEARED && !s.asked && s.answer == None && s.loop == Polling
    && s.given == map[] && s.outcomes == []
  }

  ghost predicate Follows(run: seq<State>, steps: seq<Step>, i: nat)
    requires i < |steps| < |run|
  {
    Enabled(run[i], steps[i]) && run[i + 1] == Apply(run[i], steps[i])
  }

  ghost predicate IsRun(run: seq<State>, steps: seq<Step>) {
    |run| == |steps| + 1 && Initial(run[0]) && forall i: nat :: i < |steps| ==> Follows(run, steps, i)
  }

  // ------------------------------------------------------------ invariant

  /** The call has sent its request. */
  predicate InProgress(c: Caller) {
    c.Sent? || c.Ready? || c.Waiting?
  }

  /** The answer the event loop has not signalled yet. */
  function Undelivered(s: State): Option<Answer> {
    if s.answer.Some? then s.answer else if s.loop.Polling? then None else Some(s.loop.a)
  }

  /** At most one of request, answer and handler is under way, and only for the latest call. */
  ghost predicate TrafficOk(s: State) {
    && (s.asked ==> InProgress(s.caller) && s.answer.None? && s.loop.Polling?)
    && (s.answer.Some? ==> s.loop.Polling?)
    && (Undelivered(s).Some? ==>
          && InProgress(s.caller) && !s.asked
          && s.calls in s.given && Undelivered(s).value == s.given[s.calls])
    && (s.calls in s.given <==>
          (InProgress(s.caller) && !s.asked) || s.caller.Woken? || (s.caller.Free? && s.calls > 0))
    && (s.caller.Sent? ==> s.asked || s.answer.Some? || s.loop.Checked?)
    && (s.caller.Free? || s.calls > 0)
    && (forall c :: c in s.given ==> c <= s.calls)
    && (s.calls in s.given && !s.caller.Free? ==> s.given[s.calls].kind == s.kind && s.given[s.calls].id == s.id)
  }

  /** A timer is armed for the latest call and its answer was not handled. */
  predicate TimerRuns(s: State) {
    s.caller.Armed? || ((s.caller.Ready? || s.caller.Waiting?)
                        && (s.asked || s.answer.Some? || s.loop.Checked?))
  }

  ghost predicate PendingOk(s: State) {
    if TimerRuns(s) then exists fd :: s.pending == WithTimer(NOTHING_PENDING, fd, Timer(s.kind, s.id))
    else s.pending == NOTHING_PENDING
  }

  ghost predicate RegistryOk(s: State) {
    && (forall k :: k in s.reg ==> k < s.nextKey && s.reg[k].reqId == k)
    && (!s.caller.Free? ==> s.id.reqId in s.reg && s.reg[s.id.reqId] == s.id)
  }

  ghost predicate FlagsOk(s: State) {
    && (s.caller.Waiting? && s.flags.raised ==>
          s.calls in s.given && Undelivered(s).None? && s.flags == FlagsOf(s.given[s.calls]))
    && (s.caller.Woken? ==>
          s.calls in s.given && s.flags == FlagsOf(s.given[s.calls]) && s.caller.ok == s.given[s.calls].ok)
  }

  ghost predicate OutcomesOk(s: State) {
    forall i :: 0 <= i < |s.outcomes| ==>
      var o := s.outcomes[i];
      && o.call in s.given && o.call <= s.calls && (o.call == s.calls ==> s.caller.Free? || s.caller.Stopped?)
      && o.ok == s.given[o.call].ok && o.reason == (if o.ok then "" else s.given[o.call].reason)
  }

  ghost predicate Inv(s: State) {
    && OutcomesOk(s)
    && (s.caller.Stopped? || (TrafficOk(s) && PendingOk(s) && RegistryOk(s) && FlagsOk(s)))
  }

  lemma StepKeepsTraffic(s: State, st: Step)
    requires Inv(s) && Enabled(s, st) && !Apply(s, st).caller.Stopped?
    ensures TrafficOk(Apply(s, st))
  {
  }

  lemma StepKeepsPending(s: State, st: Step)
    requires Inv(s) && Enabled(s, st) && !Apply(s, st).caller.Stopped?
    ensures PendingOk(Apply(s, st))
  {
    var t := Apply(s, st);
    match st {
      case Arm(fd) => assert t.pending == WithTimer(NOTHING_PENDING, fd, Timer(t.kind, t.id));
      case Disarm =>
        var fd :| s.pending == WithTimer(NOTHING_PENDING, fd, Timer(s.kind, s.id));
        assert t.pending == NOTHING_PENDING;
      case _ =>
    }
  }

  lemma StepKeepsFlags(s: State, st: Step)
    requires Inv(s) && Enabled(s, st) && !Apply(s, st).caller.Stopped?
    ensures FlagsOk(Apply(s, st)) && RegistryOk(Apply(s, st))
  {
  }

  lemma StepKeepsOutcomes(s: State, st: Step)
    requires Inv(s) && Enabled(s, st)
    ensures OutcomesOk(Apply(s, st))
  {
  }

  lemma StepKeepsInv(s: State, st: Step)
    requires Inv(s) && Enabled(s, st)
    ensures Inv(Apply(s, st))
  {
    StepKeepsOutcomes(s, st);
    if !Apply(s, st).caller.Stopped? {
      StepKeepsTraffic(s, st);
      StepKeepsPending(s, st);
      StepKeepsFlags(s, st);
    }
  }

  // ------------------------------------------------------------ what every run keeps

  lemma {:induction false} RunKeepsInv(run: seq<State>, steps: seq<Step>, n: nat)
    requires IsRun(run, steps) && n < |run|
    ensures Inv(run[n])
  {
    if n == 0 {
    } else {
      RunKeepsInv(run, steps, n - 1);
      assert Follows(run, steps, n - 1);
      StepKeepsInv(run[n - 1], steps[n - 1]);
    }
  }

  /** Wait verdict: whatever a call returned, its success and its error text are those of
      the answer the peer gave to the request of this very call. */
  lemma VerdictsAreTheirOwn(run: seq<State>, steps: seq<Step>, n: nat)
    requires IsRun(run, steps) && n < |run|
    ensures forall i :: 0 <= i < |run[n].outcomes| ==>
              var o := run[n].outcomes[i];
              && o.call in run[n].given && o.ok == run[n].given[o.call].ok
              && o.reason == if o.ok then "" else run[n].given[o.call].reason
  {
    RunKeepsInv(run, steps, n);
  }

  /** The coarse key is sound: there is never a second pending event, let alone one of the
      same kind, so the two trees stay inverse to each other. */
  lemma NeverTwoPending(run: seq<State>, steps: seq<Step>, n: nat)
    requires IsRun(run, steps) && n < |run| && !run[n].caller.Stopped?
    ensures var p := run[n].pending;
            && (forall f, g :: f in p.left && g in p.left ==> f == g)
            && TreesAgree(p)
            && (forall fd :: Enabled(run[n], Arm(fd)) ==> run[n].kind !in p.right)
  {
    RunKeepsInv(run, steps, n);
  }

  /** The handler of an answer finds a descriptor under the answer's kind exactly unless the
      call is between sending and arming; what it finds was armed for that request. */
  lemma HandlerFindsTimerIffArmed(run: seq<State>, steps: seq<Step>, n: nat)
    requires IsRun(run, steps) && n < |run| && !run[n].caller.Stopped? && run[n].loop.Checked?
    ensures var s := run[n];
            && (Enabled(s, Disarm) <==> !s.caller.Sent?)
            && (Enabled(s, Disarm) ==>
                  var fd := s.pending.right[s.loop.a.kind];
                  fd in s.pending.left && s.pending.left[fd] == Timer(s.loop.a.kind, s.loop.a.id))
  {
    RunKeepsInv(run, steps, n);
  }

  /** An answer always finds its procedure registered. */
  lemma AnswersFindTheirProcedure(run: seq<State>, steps: seq<Step>, n: nat)
    requires IsRun(run, steps) && n < |run| && !run[n].caller.Stopped? && run[n].answer.Some?
    ensures Enabled(run[n], Poll) && run[n].reg[run[n].answer.value.id.reqId] == run[n].answer.value.id
  {
    RunKeepsInv(run, steps, n);
  }

  /** A subscription is armed before it is sent, so its answer is always handled. */
  lemma SubscriptionAnswersAreHandled(run: seq<State>, steps: seq<Step>, n: nat)
    requires IsRun(run, steps) && n < |run| && !run[n].caller.Stopped?
    requires run[n].loop.Checked? && run[n].loop.a.kind == Subscription
    ensures Enabled(run[n], Disarm)
  {
    RunKeepsInv(run, steps, n);
    SentIsNoSubscription(run, steps, n);
  }

  lemma SentStaysNoSubscription(s: State, st: Step)
    requires Enabled(s, st) && (s.caller.Sent? ==> s.kind != Subscription)
    ensures Apply(s, st).caller.Sent? ==> Apply(s, st).kind != Subscription
  {
  }

  lemma {:induction false} SentIsNoSubscription(run: seq<State>, steps: seq<Step>, n: nat)
    requires IsRun(run, steps) && n < |run|
    ensures run[n].caller.Sent? ==> run[n].kind != Subscription
  {
    if n == 0 {
    } else {
      SentIsNoSubscription(run, steps, n - 1);
      assert Follows(run, steps, n - 1);
      SentStaysNoSubscription(run[n - 1], steps[n - 1]);
    }
  }

  lemma Extended(run: seq<State>, steps: seq<Step>, st: Step) returns (longer: seq<State>, more: seq<Step>)
    requires IsRun(run, steps) && Enabled(run[|steps|], st)
    ensures IsRun(longer, more) && more == steps + [st] && longer[|more|] == Apply(run[|steps|], st)
  {
    longer, more := run + [Apply(run[|steps|], st)], steps + [st];
    forall i: nat | i < |more| ensures Follows(longer, more, i) {
      if i < |steps| {
        assert Follows(run, steps, i);
      }
    }
  }

  /** A control request is sent before it is armed: an answer handled in between fails the
      assert that its pending event exists. */
  lemma ControlAnsweredTooEarly() returns (run: seq<State>, steps: seq<Step>)
    ensures IsRun(run, steps) && run[|steps|].loop.Checked? && !run[|steps|].caller.Stopped?
    ensures run[|steps|].kind == Control && !Enabled(run[|steps|], Disarm)
  {
    run, steps := [IDLE], [];
    run, steps := Extended(run, steps, Begin(Control, 3));
    run, steps := Extended(run, steps, Send);
    run, steps := Extended(run, steps, Respond(true, ""));
    run, steps := Extended(run, steps, Poll);
  }

  // ------------------------------------------------------------ lost signals

  /** The answer was handled before the caller began to wait. */
  ghost predicate SignalLost(s: State) {
    && s.caller.Waiting? && !s.flags.raised && !s.asked && s.answer.None? && s.loop.Polling?
  }

  /** After a signal the caller gets to wake up exactly if it was waiting already; before
      that, the signal is wiped out when the wait begins. */
  lemma SignalIsLostIffEarly(run: seq<State>, steps: seq<Step>, n: nat)
    requires IsRun(run, steps) && n < |run| && Enabled(run[n], Signal)
    ensures var t := Apply(run[n], Signal);
            && (Enabled(t, Wake) <==> run[n].caller.Waiting?)
            && (!Enabled(t, Wake) ==> t.caller.Ready? && SignalLost(Apply(t, EnterWait)))
  {
    RunKeepsInv(run, steps, n);
  }

  /** A timeout is an assert that fails: nothing happens after it. */
  lemma TimeoutsStop(s: State, st: Step, next: Step)
    requires Enabled(s, st) && (st == WaitTimeout || st.TimerExpires?)
    ensures !Enabled(Apply(s, st), next)
  {
  }

  /** Once its signal is lost, the only thing that can happen is that the wait times out
      and the run stops: no stale or foreign answer ever ends the wait, and the wait is not
      entered again. */
  lemma LostSignalOnlyTimesOut(run: seq<State>, steps: seq<Step>, n: nat, st: Step)
    requires IsRun(run, steps) && n < |run| && SignalLost(run[n])
    ensures Enabled(run[n], st) <==> st == WaitTimeout
    ensures forall next :: !Enabled(Apply(run[n], WaitTimeout), next)
  {
    RunKeepsInv(run, steps, n);
    forall next ensures !Enabled(Apply(run[n], WaitTimeout), next) {
      TimeoutsStop(run[n], WaitTimeout, next);
    }
  }

  // ------------------------------------------------------------ what calls leave behind

  /** The keys of the subscriptions begun so far, and the RAN functions they are for. */
  ghost function SubscribedBy(run: seq<State>, steps: seq<Step>, n: nat): map<nat, nat>
    requires n <= |steps| < |run|
  {
    if n == 0 then map[]
    else
      var before := SubscribedBy(run, steps, n - 1);
      match steps[n - 1]
      case Begin(k, ranFunc) => if k == Subscription then before[run[n - 1].nextKey := ranFunc] else before
      case _ => before
  }

  /** The keys whose delete has begun. */
  ghost function DeletedBy(steps: seq<Step>, n: nat): set<nat>
    requires n <= |steps|
  {
    if n == 0 then {}
    else
      match steps[n - 1]
      case BeginDelete(key) => DeletedBy(steps, n - 1) + {key}
      case _ => DeletedBy(steps, n - 1)
  }

  /** The registry holds the procedure of the running call and the subscriptions that no
      delete was begun for. */
  ghost predicate RegistryIs(s: State, subs: map<nat, nat>, dels: set<nat>) {
    && (forall key :: key in subs || key in dels ==> key < s.nextKey)
    && (forall key :: key in s.reg <==>
          (!s.caller.Free? && key == s.id.reqId) || (key in subs && key !in dels))
    && (forall key :: key in s.reg && key in subs ==> s.reg[key] == RicGenId(key, 0, subs[key]))
    && (!s.caller.Free? ==>
          match s.kind
          case Subscription => s.id.reqId in subs && s.id.reqId !in dels
          case SubscriptionDelete => s.id.reqId in dels
          case Control => s.id.reqId !in subs)
  }

  lemma BeginKeepsRegistry(s: State, k: Kind, ranFunc: nat, subs: map<nat, nat>, dels: set<nat>)
    requires RegistryOk(s) && RegistryIs(s, subs, dels) && Enabled(s, Begin(k, ranFunc))
    ensures var more := if k == Subscription then subs[s.nextKey := ranFunc] else subs;
            RegistryIs(Apply(s, Begin(k, ranFunc)), more, dels)
  {
  }

  lemma BeginDeleteKeepsRegistry(s: State, key: nat, subs: map<nat, nat>, dels: set<nat>)
    requires RegistryOk(s) && RegistryIs(s, subs, dels) && Enabled(s, BeginDelete(key))
    ensures RegistryIs(Apply(s, BeginDelete(key)), subs, dels + {key})
  {
  }

  lemma RestKeepsRegistry(s: State, st: Step, subs: map<nat, nat>, dels: set<nat>)
    requires RegistryOk(s) && RegistryIs(s, subs, dels) && Enabled(s, st) && !Apply(s, st).caller.Stopped?
    requires !st.Begin? && !st.BeginDelete?
    ensures RegistryIs(Apply(s, st), subs, dels)
  {
  }

  lemma {:induction false} RunKeepsRegistry(run: seq<State>, steps: seq<Step>, n: nat)
    requires IsRun(run, steps) && n < |run|
    ensures run[n].caller.Stopped? || RegistryIs(run[n], SubscribedBy(run, steps, n), DeletedBy(steps, n))
  {
    if n == 0 {
    } else {
      RunKeepsRegistry(run, steps, n - 1);
      RunKeepsInv(run, steps, n - 1);
      assert Follows(run, steps, n - 1);
      var s, st := run[n - 1], steps[n - 1];
      var subs, dels := SubscribedBy(run, steps, n - 1), DeletedBy(steps, n - 1);
      match st {
        case Begin(k, ranFunc) => BeginKeepsRegistry(s, k, ranFunc, subs, dels);
        case BeginDelete(key) => BeginDeleteKeepsRegistry(s, key, subs, dels);
        case _ =>
          if !run[n].caller.Stopped? {
            RestKeepsRegistry(s, st, subs, dels);
          }
      }
    }
  }

  /** Between calls the registry holds exactly the subscriptions that were made and not
      deleted, each with the identifier its call began with: a subscription outlives its
      call, a delete and a control leave nothing. */
  lemma RegistryBetweenCalls(run: seq<State>, steps: seq<Step>, n: nat, key: nat)
    requires IsRun(run, steps) && n < |run| && run[n].caller.Free?
    ensures key in run[n].reg <==> key in SubscribedBy(run, steps, n) && key !in DeletedBy(steps, n)
    ensures key in run[n].reg ==> run[n].reg[key] == RicGenId(key, 0, SubscribedBy(run, steps, n)[key])
    ensures key in run[n].reg <==> Enabled(run[n], BeginDelete(key))
  {
    RunKeepsRegistry(run, steps, n);
  }

  /** What each call asked for, in order. */
  ghost function Begun(run: seq<State>, steps: seq<Step>, n: nat): seq<Timer>
    requires IsRun(run, steps) && n < |run|
  {
    if n == 0 then []
    else
      assert Follows(run, steps, n - 1);
      match steps[n - 1]
      case Begin(k, ranFunc) => Begun(run, steps, n - 1) + [Timer(k, RicGenId(run[n - 1].nextKey, 0, ranFunc))]
      case BeginDelete(key) => Begun(run, steps, n - 1) + [Timer(SubscriptionDelete, run[n - 1].reg[key])]
      case _ => Begun(run, steps, n - 1)
  }

  /** The calls so far, their outcomes and the answers given to them are those of the begun
      calls. */
  ghost predicate CallsAre(s: State, begun: seq<Timer>) {
    && s.calls == |begun|
    && (!s.caller.Free? ==> begun != [] && begun[|begun| - 1] == Timer(s.kind, s.id))
    && (forall c :: c in s.given ==> 1 <= c <= |begun| && Timer(s.given[c].kind, s.given[c].id) == begun[c - 1])
    && (!s.caller.Stopped? ==> |s.outcomes| == s.calls - if s.caller.Free? then 0 else 1)
    && (forall i :: 0 <= i < |s.outcomes| ==> s.outcomes[i].call == i + 1)
  }

  lemma BeginKeepsCalls(s: State, st: Step, begun: seq<Timer>, t: Timer)
    requires Inv(s) && CallsAre(s, begun) && Enabled(s, st) && (st.Begin? || st.BeginDelete?)
    requires st.Begin? ==> t == Timer(st.k, RicGenId(s.nextKey, 0, st.ranFunc))
    requires st.BeginDelete? ==> t == Timer(SubscriptionDelete, s.reg[st.key])
    ensures CallsAre(Apply(s, st), begun + [t])
  {
  }

  lemma RestKeepsCalls(s: State, st: Step, begun: seq<Timer>)
    requires Inv(s) && CallsAre(s, begun) && Enabled(s, st) && !st.Begin? && !st.BeginDelete?
    ensures CallsAre(Apply(s, st), begun)
  {
  }

  lemma {:induction false} RunKeepsCalls(run: seq<State>, steps: seq<Step>, n: nat)
    requires IsRun(run, steps) && n < |run|
    ensures CallsAre(run[n], Begun(run, steps, n))
  {
    if n == 0 {
    } else {
      RunKeepsCalls(run, steps, n - 1);
      RunKeepsInv(run, steps, n - 1);
      assert Follows(run, steps, n - 1);
      var s, st, begun := run[n - 1], steps[n - 1], Begun(run, steps, n - 1);
      if st.Begin? || st.BeginDelete? {
        BeginKeepsCalls(s, st, begun, Begun(run, steps, n)[|begun|]);
      } else {
        RestKeepsCalls(s, st, begun);
      }
    }
  }

  /** Every call that is over has exactly one outcome, in order, and the answer it is taken
      from was given to a request of the kind and the identifier the call began with. */
  lemma OneOutcomeForEachCall(run: seq<State>, steps: seq<Step>, n: nat)
    requires IsRun(run, steps) && n < |run| && run[n].caller.Free?
    ensures |run[n].outcomes| == |Begun(run, steps, n)|
    ensures forall i :: 0 <= i < |run[n].outcomes| ==>
              && run[n].outcomes[i].call == i + 1 && i + 1 in run[n].given
              && Timer(run[n].given[i + 1].kind, run[n].given[i + 1].id) == Begun(run, steps, n)[i]
  {
    RunKeepsCalls(run, steps, n);
    RunKeepsInv(run, steps, n);
    forall i | 0 <= i < |run[n].outcomes|
      ensures run[n].outcomes[i].call == i + 1 && i + 1 in run[n].given
      ensures Timer(run[n].given[i + 1].kind, run[n].given[i + 1].id) == Begun(run, steps, n)[i]
    {
      assert run[n].outcomes[i].call in run[n].given;
    }
  }

  // ------------------------------------------------------------ a call that returns

  /** The caller waits, and nothing was answered yet. */
  function Asking(k: Kind, ranFunc: nat): State {
    var id := RicGenId(1, 0, ranFunc);
    State(2, map[1 := id], 1, k, id, Caller.Waiting, WithTimer(NOTHING_PENDING, 9, Timer(k, id)), CLEARED, true, None,
          Polling, map[], [])
  }

  const IDLE := State(1, map[], 0, Control, RicGenId(0, 0, 0), Free, NOTHING_PENDING, CLEARED, false, None,
                      Polling, map[], [])

  lemma CallWaits(k: Kind, ranFunc: nat) returns (run: seq<State>, steps: seq<Step>)
    requires k != SubscriptionDelete
    ensures IsRun(run, steps) && run[|steps|] == Asking(k, ranFunc)
  {
    run, steps := [IDLE], [];
    run, steps := Extended(run, steps, Begin(k, ranFunc));
    if k == Subscription {
      run, steps := Extended(run, steps, Arm(9));
      run, steps := Extended(run, steps, Send);
    } else {
      run, steps := Extended(run, steps, Send);
      run, steps := Extended(run, steps, Arm(9));
    }
    run, steps := Extended(run, steps, EnterWait);
  }

  lemma CallIsAnswered(k: Kind, ranFunc: nat, ok: bool, reason: string) returns (run: seq<State>, steps: seq<Step>)
    requires k != SubscriptionDelete && (k != Control ==> ok)
    ensures IsRun(run, steps)
    ensures var a := Answer(k, RicGenId(1, 0, ranFunc), ok, reason);
            run[|steps|] == Asking(k, ranFunc).(asked := false, pending := NOTHING_PENDING, flags := FlagsOf(a),
                                                given := map[1 := a])
  {
    run, steps := CallWaits(k, ranFunc);
    run, steps := Extended(run, steps, Respond(ok, reason));
    run, steps := Extended(run, steps, Poll);
    run, steps := Extended(run, steps, Disarm);
    assert run[|steps|].pending == NOTHING_PENDING;
    run, steps := Extended(run, steps, Signal);
  }

  /** A call whose answer comes while it waits returns that answer's verdict and reason, and
      leaves its procedure registered if it is a subscription. */
  lemma CallReturns(k: Kind, ranFunc: nat, ok: bool, reason: string) returns (run: seq<State>, steps: seq<Step>)
    requires k != SubscriptionDelete && (k != Control ==> ok)
    ensures IsRun(run, steps) && run[|steps|].caller.Free?
    ensures run[|steps|].outcomes == [Outcome(1, ok, if ok then "" else reason)]
    ensures run[|steps|].reg == if k == Subscription then map[1 := RicGenId(1, 0, ranFunc)] else map[]
    ensures run[|steps|].pending == NOTHING_PENDING
  {
    run, steps := CallIsAnswered(k, ranFunc, ok, reason);
    run, steps := Extended(run, steps, Wake);
    run, steps := Extended(run, steps, Return);
  }
}
