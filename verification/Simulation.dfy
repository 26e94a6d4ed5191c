// Lifting a step-by-step simulation to whole runs.
module Simulation {

  /** If every step of a run can be followed from any related state, the whole run can. */
  lemma {:induction false} Lift<C(!new), S(!new), A(!new)>(
      run: seq<C>, steps: seq<S>, start: A, next: (C, S, A) -> A, rel: (C, A) -> bool)
    returns (shadow: seq<A>)
    requires |run| == |steps| + 1 && rel(run[0], start)
    requires forall i, a :: 0 <= i < |steps| && rel(run[i], a) ==> rel(run[i + 1], next(run[i], steps[i], a))
    ensures |shadow| == |run| && shadow[0] == start
    ensures forall i :: 0 <= i < |run| ==> rel(run[i], shadow[i])
    ensures forall i :: 0 <= i < |steps| ==> shadow[i + 1] == next(run[i], steps[i], shadow[i])
    decreases |steps|
  {
    if steps == [] {
      shadow := [start];
    } else {
      var n := |steps| - 1;
      var shorter := Lift(run[..n + 1], steps[..n], start, next, rel);
      assert run[..n + 1][n] == run[n];
      shadow := shorter + [next(run[n], steps[n], shorter[n])];
    }
  }

  /** A quantity no step lowers is largest at the end. */
  lemma {:induction false} Grows<C(!new)>(run: seq<C>, size: C -> int, i: nat)
    requires i < |run| && forall j :: 0 <= j < |run| - 1 ==> size(run[j]) <= size(run[j + 1])
    ensures size(run[i]) <= size(run[|run| - 1])
    decreases |run| - i
  {
    if i == |run| - 1 {
    } else {
      Grows(run, size, i + 1);
    }
  }

  /** A fact that survives every step from k on, and a quantity no such step changes. */
  lemma {:induction false} Stays<C(!new)>(run: seq<C>, holds: C -> bool, size: C -> int, k: nat, n: nat)
    requires k <= n < |run| && holds(run[k])
    requires forall j :: k <= j < |run| - 1 && holds(run[j]) ==>
               holds(run[j + 1]) && size(run[j + 1]) == size(run[j])
    ensures holds(run[n]) && size(run[n]) == size(run[k])
  {
    if k == n {
    } else {
      Stays(run, holds, size, k, n - 1);
    }
  }
}
