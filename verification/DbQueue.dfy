// The xApp's database writer: any number of producers push indication records, one worker
// takes them out in batches of 100, 10 or 1 (src/xApp/db/db.c and
// src/util/alg_ds/ds/tsn_queue/tsn_queue.c).
module DbQueue {
  import opened Ids

  /** An indication and the E2 node it came from. */
  datatype Record = Record(node: NodeId, body: int)

  const NO_RECORD := Record(GlobalNodeId(2, 0, 0, 0, 0, 0, None), 0)

  // ------------------------------------------------------------ one round of the worker

  class DbXapp {
    var q: seq<Record>
    var stopToken: bool
    var table: seq<Record>
    const one: array<Record>
    const ten: array<Record>
    const hundred: array<Record>
    var val10: nat
    var val100: nat

    ghost predicate Valid()
      reads this
    {
      one.Length == 1 && ten.Length == 10 && hundred.Length == 100
    }

    constructor ()
      ensures Valid() && fresh(one) && fresh(ten) && fresh(hundred)
      ensures q == [] && table == [] && !stopToken
    {
      q, stopToken, table := [], false, [];
      one := new Record[1](_ => NO_RECORD);
      ten := new Record[10](_ => NO_RECORD);
      hundred := new Record[100](_ => NO_RECORD);
      val10, val100 := 0, 0;
    }

    method PushTsnq(r: Record)
      modifies this`q
      ensures q == old(q) + [r]
    {
      q := q + [r];
    }

    /** create_val_10: the next free slot, which the counter keeps within the array. */
    method CreateVal10(r: Record)
      requires Valid() && val10 < 10
      modifies this`val10, ten
      ensures val10 == old(val10) + 1 && val10 < 11
      ensures ten[..] == old(ten[..])[old(val10) := r]
    {
      ten[val10] := r;
      val10 := val10 + 1;
    }

    method CreateVal100(r: Record)
      requires Valid() && val100 < 100
      modifies this`val100, hundred
      ensures val100 == old(val100) + 1 && val100 < 101
      ensures hundred[..] == old(hundred[..])[old(val100) := r]
    {
      hundred[val100] := r;
      val100 := val100 + 1;
    }

    /** Nothing is taken when the stop token is set. */
    method WaitAndPopTsnq() returns (taken: bool)
      requires Valid() && (stopToken || q != [])
      modifies this`q, one
      ensures taken == !stopToken
      ensures !taken ==> q == old(q)
      ensures taken ==> one[..] == old(q)[..1] && q == old(q)[1..]
    {
      if stopToken {
        return false;
      }
      one[0] := q[0];
      q := q[1..];
      taken := true;
    }

    method PopTsnq10() returns (taken: bool)
      requires Valid() && val10 == 0 && (stopToken || |q| >= 10)
      modifies this`q, this`val10, ten
      ensures taken == !stopToken
      ensures !taken ==> q == old(q)
      ensures taken ==> ten[..] == old(q)[..10] && q == old(q)[10..]
    {
      if stopToken {
        return false;
      }
      var i := 0;
      while i < 10
        invariant 0 <= i <= 10 && val10 == i && q == old(q)
        invariant ten[..i] == q[..i]
      {
        ghost var before := ten[..];
        CreateVal10(q[i]);
        assert ten[..i] == before[..i];
        assert ten[..i + 1] == ten[..i] + [q[i]];
        i := i + 1;
      }
      assert ten[..] == ten[..10];
      q := q[10..];
      taken := true;
    }

    method PopTsnq100() returns (taken: bool)
      requires Valid() && val100 == 0 && (stopToken || |q| >= 100)
      modifies this`q, this`val100, hundred
      ensures taken == !stopToken
      ensures !taken ==> q == old(q)
      ensures taken ==> hundred[..] == old(q)[..100] && q == old(q)[100..]
    {
      if stopToken {
        return false;
      }
      var i := 0;
      while i < 100
        invariant 0 <= i <= 100 && val100 == i && q == old(q)
        invariant hundred[..i] == q[..i]
      {
        ghost var before := hundred[..];
        CreateVal100(q[i]);
        assert hundred[..i] == before[..i];
        assert hundred[..i + 1] == hundred[..i] + [q[i]];
        i := i + 1;
      }
      assert hundred[..] == hundred[..100];
      q := q[100..];
      taken := true;
    }

    method WriteAll(data: array<Record>, sz: nat)
      requires data.Length == sz
      modifies this`table
      ensures table == old(table) + data[..]
    {
      var i := 0;
      while i < sz
        invariant 0 <= i <= sz && table == old(table) + data[..i]
      {
        table := table + [data[i]];
        i := i + 1;
      }
      assert data[..] == data[..sz];
    }

    /** What the producers do meanwhile. */
    method PushAll(pushed: seq<Record>)
      modifies this`q
      ensures q == old(q) + pushed
    {
      for i := 0 to |pushed|
        invariant q == old(q) + pushed[..i]
      {
        PushTsnq(pushed[i]);
      }
      assert pushed[..|pushed|] == pushed;
    }

    /** One iteration of worker_thread. `pushed` arrives between the reading of the size
        and the taking of the batch: the size is only a lower bound by then. A worker that
        finds the queue empty waits, so something arrived or it was told to stop. */
    method WorkerRound(pushed: seq<Record>) returns (goOn: bool)
      requires Valid() && (stopToken || q + pushed != [])
      modifies this`q, this`table, this`val10, this`val100, one, ten, hundred
      ensures Valid() && goOn == !stopToken
      ensures table + q == old(table) + old(q) + pushed
      ensures !goOn ==> table == old(table)
      ensures goOn && |old(q)| > 100 ==> |table| == |old(table)| + 100
      ensures goOn && 10 < |old(q)| <= 100 ==> |table| == |old(table)| + 10
      ensures goOn && |old(q)| <= 10 ==> |table| == |old(table)| + 1
      ensures old(table) <= table
    {
      var sz := |q|;
      PushAll(pushed);
      ghost var all := q;
      if sz > 100 {
        val100 := 0;
        goOn := PopTsnq100();
        if goOn {
          WriteAll(hundred, 100);
          assert all == all[..100] + all[100..];
        }
      } else if sz > 10 {
        val10 := 0;
        goOn := PopTsnq10();
        if goOn {
          WriteAll(ten, 10);
          assert all == all[..10] + all[10..];
        }
      } else {
        goOn := WaitAndPopTsnq();
        if goOn {
          WriteAll(one, 1);
          assert all == all[..1] + all[1..];
        }
      }
    }
  }

  // ------------------------------------------------------------ every interleaving

  /** Where the worker stands: about to read the size, holding a size it has read, writing
      the records of its batch, or finished. */
  datatype Pc = Sizing | Sized(sz: nat) | Writing(batch: seq<Record>) | Finished

  /** How many records the worker takes after it saw a queue of this size. */
  function BatchSize(sz: nat): nat {
    if sz > 100 then 100 else if sz > 10 then 10 else 1
  }

  /** `pushed` logs everything ever pushed, `written` everything written. */
  datatype State = State(queue: seq<Record>, stop: bool, pc: Pc, written: seq<Record>, pushed: seq<Record>)

  datatype Step = Push(r: Record) | Stop | ReadSize | Take | GiveUp | Write

  /** Take and GiveUp are the two ends of a pop: GiveUp sees the stop token. */
  predicate Enabled(s: State, st: Step) {
    match st
    case Push(_) => true
    case Stop => true
    case ReadSize => s.pc.Sizing?
    case Take => s.pc.Sized? && !s.stop && (BatchSize(s.pc.sz) == 1 ==> s.queue != [])
    case GiveUp => s.pc.Sized? && s.stop
    case Write => s.pc.Writing?
  }

  /** pop_tsnq_10 and pop_tsnq_100 assert that the queue still holds a whole batch. */
  predicate AssertHolds(s: State, st: Step) {
    st.Take? && s.pc.Sized? ==> BatchSize(s.pc.sz) <= |s.queue|
  }

  function Apply(s: State, st: Step): State
    requires Enabled(s, st) && AssertHolds(s, st)
  {
    match st
    case Push(r) => s.(queue := s.queue + [r], pushed := s.pushed + [r])
    case Stop => s.(stop := true)
    case ReadSize => s.(pc := Sized(|s.queue|))
    case Take =>
      var n := BatchSize(s.pc.sz);
      s.(pc := Writing(s.queue[..n]), queue := s.queue[n..])
    case GiveUp => s.(pc := Finished)
    case Write =>
      if s.pc.batch == [] then s.(pc := Sizing)
      else s.(written := s.written + [s.pc.batch[0]], pc := Writing(s.pc.batch[1..]))
  }

  ghost predicate Initial(s: State) {
    s == State([], false, Sizing, [], [])
  }

  ghost predicate Follows(run: seq<State>, steps: seq<Step>, i: nat)
    requires i < |steps| < |run|
  {
    Enabled(run[i], steps[i]) && AssertHolds(run[i], steps[i]) && run[i + 1] == Apply(run[i], steps[i])
  }

  ghost predicate IsRun(run: seq<State>, steps: seq<Step>) {
    |run| == |steps| + 1 && Initial(run[0]) && forall i: nat :: i < |steps| ==> Follows(run, steps, i)
  }

  function InHand(pc: Pc): seq<Record> {
    if pc.Writing? then pc.batch else []
  }

  ghost predicate Inv(s: State) {
    && s.written + InHand(s.pc) + s.queue == s.pushed
    && (s.pc.Sized? ==> s.pc.sz <= |s.queue|)
    && |InHand(s.pc)| <= 100
    && (s.pc.Finished? ==> s.stop)
  }

  lemma PushKeepsInv(s: State, r: Record)
    requires Inv(s)
    ensures Inv(Apply(s, Push(r)))
  {
    assert s.written + InHand(s.pc) + (s.queue + [r]) == s.pushed + [r];
  }

  lemma TakeKeepsInv(s: State)
    requires Inv(s) && Enabled(s, Take)
    ensures AssertHolds(s, Take) && Inv(Apply(s, Take))
  {
    var n := BatchSize(s.pc.sz);
    assert s.queue == s.queue[..n] + s.queue[n..];
    assert s.written + [] + s.queue == s.written + s.queue[..n] + s.queue[n..];
  }

  lemma WriteKeepsInv(s: State)
    requires Inv(s) && Enabled(s, Write)
    ensures Inv(Apply(s, Write))
  {
    if s.pc.batch != [] {
      var r, rest := s.pc.batch[0], s.pc.batch[1..];
      assert s.pc.batch == [r] + rest;
      assert s.written + ([r] + rest) == (s.written + [r]) + rest;
    }
  }

  lemma StepKeepsInv(s: State, st: Step)
    requires Inv(s) && Enabled(s, st)
    ensures AssertHolds(s, st) && Inv(Apply(s, st))
  {
    match st {
      case Push(r) => PushKeepsInv(s, r);
      case Take => TakeKeepsInv(s);
      case Write => WriteKeepsInv(s);
      case _ =>
    }
  }

  lemma {:induction false} RunKeepsInv(run: seq<State>, steps: seq<Step>, n: nat)
    requires IsRun(run, steps) && n < |run|
    ensures Inv(run[n])
  {
    if n == 0 {
    } else {
      RunKeepsInv(run, steps, n - 1);
      assert Follows(run, steps, n - 1);
      StepKeepsInv(run[n - 1], steps[n - 1]);
    }
  }

  /** What the producers pushed in these steps. */
  function PushesOf(steps: seq<Step>): seq<Record> {
    if steps == [] then []
    else
      var last := steps[|steps| - 1];
      PushesOf(steps[..|steps| - 1]) + if last.Push? then [last.r] else []
  }

  lemma {:induction false} HistoryIsTrue(run: seq<State>, steps: seq<Step>, n: nat)
    requires IsRun(run, steps) && n < |run|
    ensures run[n].pushed == PushesOf(steps[..n]) && (run[n].stop <==> Stop in steps[..n])
  {
    if n == 0 {
    } else {
      HistoryIsTrue(run, steps, n - 1);
      assert Follows(run, steps, n - 1);
      assert steps[..n] == steps[..n - 1] + [steps[n - 1]];
      assert steps[..n][..n - 1] == steps[..n - 1];
    }
  }

  /** Conservation: for every interleaving of pushes with the one worker, what was written,
      what the worker holds and what is queued are together what the producers pushed, in
      order; the worker finishes only if it was told to stop, and then takes no more. */
  lemma NothingLostOrReordered(run: seq<State>, steps: seq<Step>, n: nat)
    requires IsRun(run, steps) && n < |run|
    ensures run[n].written + InHand(run[n].pc) + run[n].queue == PushesOf(steps[..n])
    ensures Stop in steps[..n] ==> !Enabled(run[n], Take)
    ensures run[n].pc.Finished? ==> Stop in steps[..n] && InHand(run[n].pc) == []
  {
    RunKeepsInv(run, steps, n);
    HistoryIsTrue(run, steps, n);
  }

  /** The worker read the size of the queue in step j and has not taken its batch since. */
  ghost predicate ReadAt(run: seq<State>, steps: seq<Step>, j: nat, n: nat)
    requires IsRun(run, steps) && j < n < |run|
  {
    steps[j] == ReadSize && forall i :: j < i < n ==> steps[i] != Take && steps[i] != GiveUp
  }

  lemma {:induction false} SizeWasRead(run: seq<State>, steps: seq<Step>, n: nat) returns (j: nat)
    requires IsRun(run, steps) && n < |run| && run[n].pc.Sized?
    ensures j < n && ReadAt(run, steps, j, n) && run[n].pc == Sized(|run[j].queue|)
  {
    if n == 0 {
      assert false;
    } else {
      assert Follows(run, steps, n - 1);
      if steps[n - 1] == ReadSize {
        j := n - 1;
      } else {
        j := SizeWasRead(run, steps, n - 1);
      }
    }
  }

  /** The size is a safe lower bound however many pushes came since: a batch that is taken
      is always there, and it is the 100, 10 or 1 oldest records by the size that was read
      last. */
  lemma BatchesAreThere(run: seq<State>, steps: seq<Step>, n: nat) returns (j: nat)
    requires IsRun(run, steps) && n < |run| && Enabled(run[n], Take)
    ensures AssertHolds(run[n], Take) && j < n && ReadAt(run, steps, j, n)
    ensures var sz, batch := |run[j].queue|, InHand(Apply(run[n], Take).pc);
            && batch <= run[n].queue
            && (sz > 100 ==> |batch| == 100)
            && (10 < sz <= 100 ==> |batch| == 10)
            && (sz <= 10 ==> |batch| == 1)
  {
    j := SizeWasRead(run, steps, n);
    RunKeepsInv(run, steps, n);
  }

  lemma Extended(run: seq<State>, steps: seq<Step>, st: Step) returns (longer: seq<State>, more: seq<Step>)
    requires IsRun(run, steps) && Enabled(run[|steps|], st) && AssertHolds(run[|steps|], st)
    ensures IsRun(longer, more) && more == steps + [st] && longer[|more|] == Apply(run[|steps|], st)
  {
    longer, more := run + [Apply(run[|steps|], st)], steps + [st];
    forall i: nat | i < |more| ensures Follows(longer, more, i) {
      if i < |steps| {
        assert Follows(run, steps, i);
      }
    }
  }

  /** A record that is pushed gets written, and the worker is ready for the next. */
  lemma OneRecordIsWritten(r: Record) returns (run: seq<State>, steps: seq<Step>)
    ensures IsRun(run, steps) && run[|steps|] == State([], false, Sizing, [r], [r])
  {
    run, steps := [State([], false, Sizing, [], [])], [];
    run, steps := Extended(run, steps, Push(r));
    run, steps := Extended(run, steps, ReadSize);
    run, steps := Extended(run, steps, Take);
    run, steps := Extended(run, steps, Write);
    run, steps := Extended(run, steps, Write);
  }
}
