/** The scan over the fast slots while other threads pay debts. */
module Scans {
  import opened Protocol
  import opened Steps
  import opened Invariant
  import opened Moves
  import opened Preservation
  import opened Runs
  import opened Progress
  import FastSlots

  /** Thread `t` is about to inspect the slot of turn `i`. */
  predicate Scanning(s: State, t: nat, i: nat, node: nat, offset: nat) {
    && t < |s.threads| && s.threads[t].call.LScan? && s.threads[t].call.i == i
    && s.threads[t].node == node && s.threads[t].offset == offset
  }

  ghost predicate Occupied(s: State, n: nat, j: nat) {
    n < |s.nodes| && j < |s.nodes[n].slots| && s.nodes[n].slots[j].Owes?
  }

  lemma ScanTurn(s: State, t: nat, i: nat, node: nat, offset: nat)
    requires Ready(s, t) && Scanning(s, t, i, node, offset)
    ensures i < FAST_SLOTS && t < |CallStep(s, t).threads|
    ensures !CallStep(s, t).threads[t].call.LPut? ==> Occupied(s, node, FastSlots.Turn(i, offset))
    ensures CallStep(s, t).threads[t].call.LScan? ==> Scanning(CallStep(s, t), t, i + 1, node, offset)
    ensures CallStep(s, t).threads[t].call.FAddr? ==> i + 1 == FAST_SLOTS
    ensures CallStep(s, t).threads[t] != s.threads[t]
  {
  }

  lemma ScanStep(run: seq<State>, k: nat, t: nat, i: nat, node: nat, offset: nat)
    requires IsRun(run) && k + 1 < |run| && Scanning(run[k], t, i, node, offset) && t < |run[k + 1].threads|
    ensures i < FAST_SLOTS
    ensures
      || run[k + 1].threads[t] == run[k].threads[t]
      || run[k + 1].threads[t].call.LPut?
      || (&& Moved(run[k], run[k + 1], t) && Occupied(run[k], node, FastSlots.Turn(i, offset))
          && (Scanning(run[k + 1], t, i + 1, node, offset) || !run[k + 1].threads[t].call.LScan?)
          && (run[k + 1].threads[t].call.FAddr? ==> i + 1 == FAST_SLOTS))
  {
    var a := StepOf(run, k);
    Unfold(run[k], t);
    ScanTurn(run[k], t, i, node, offset);
    if Actor(a) != t {
      Others(run[k], a, t);
    }
  }

  /** The slot of turn `y` was found occupied at some moment of the scan. */
  ghost predicate FoundOccupied(run: seq<State>, i: nat, j: nat, node: nat, y: nat, offset: nat) {
    exists k :: i <= k < j <= |run| && Occupied(run[k], node, FastSlots.Turn(y, offset))
  }

  lemma {:induction false} ScanSoFar(run: seq<State>, i: nat, j: nat, t: nat, node: nat, offset: nat) returns (x: nat)
    requires IsRun(run) && i <= j < |run| && Scanning(run[i], t, 0, node, offset)
    requires forall m :: i <= m <= j ==> t < |run[m].threads| && run[m].threads[t].call.LScan?
    ensures Scanning(run[j], t, x, node, offset) && OwnSteps(run, i, j, t) == x
    ensures forall y :: 0 <= y < x ==> FoundOccupied(run, i, j, node, y, offset)
    decreases j - i
  {
    x := 0;
    if i < j {
      x := ScanSoFar(run, i, j - 1, t, node, offset);
      ScanStep(run, j - 1, t, x, node, offset);
      forall y | 0 <= y < x ensures FoundOccupied(run, i, j, node, y, offset) {
        assert FoundOccupied(run, i, j - 1, node, y, offset);
        var k :| i <= k < j - 1 && Occupied(run[k], node, FastSlots.Turn(y, offset));
      }
      if run[j].threads[t] != run[j - 1].threads[t] {
        assert Occupied(run[j - 1], node, FastSlots.Turn(x, offset));
        assert FoundOccupied(run, i, j, node, x, offset);
        x := x + 1;
      }
    }
  }

  /** A scan that gives up has inspected every fast slot exactly once, and found each of them occupied
      at that moment, whatever debts other threads paid meanwhile. */
  lemma ScanGivesUpOnlyWhenFull(run: seq<State>, i: nat, j: nat, t: nat, node: nat, offset: nat, z: nat)
    requires IsRun(run) && i < j < |run| && Scanning(run[i], t, 0, node, offset)
    requires forall m :: i <= m < j ==> t < |run[m].threads| && run[m].threads[t].call.LScan?
    requires t < |run[j].threads| && run[j].threads[t].call.FAddr? && z < FAST_SLOTS
    ensures OwnSteps(run, i, j, t) == FAST_SLOTS
    ensures exists k :: i <= k < j && Occupied(run[k], node, z)
  {
    var x := ScanSoFar(run, i, j - 1, t, node, offset);
    ScanStep(run, j - 1, t, x, node, offset);
    var y := FastSlots.TurnOf(z, offset);
    FastSlots.RotationVisitsEachOnce(offset, z, y);
    if y < x {
      assert FoundOccupied(run, i, j - 1, node, y, offset);
      var k :| i <= k < j - 1 && Occupied(run[k], node, FastSlots.Turn(y, offset));
      assert Occupied(run[k], node, z);
    } else {
      assert Occupied(run[j - 1], node, z);
    }
  }
}
