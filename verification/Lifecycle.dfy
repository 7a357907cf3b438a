/** The end of a storage, and the life of a node, from the user's action to its end. */
module Lifecycle {
  import opened Protocol
  import opened Steps
  import opened Invariant
  import opened Moves
  import opened Preservation
  import opened Runs
  import opened Progress
  import opened Sweeps
  import opened Writes
  import Theorems

  // ---------------------------------------------------------------------------------------------
  // into_inner and drop of a storage

  /** The operation has taken `out` out of the storage `c`, which is no more. */
  predicate Takes(op: Op, c: nat, out: Ptr, kind: Kind) {
    op.Sweeping? && op.job.cell == c && op.job.out == out && op.job.kind == kind
  }

  /** `into_inner` hands its reference to the user; `drop` releases it. */
  ghost predicate GivesUp(a: State, b: State, t: nat, out: Ptr, inner: bool) {
    && t < |b.threads| && b.threads[t].op.Idle?
    && (if inner then b.handles == Inc(a.handles, out) && b.refs == a.refs
        else b.handles == a.handles && a.refs[out] > 0 && b.refs == Dec(a.refs, out))
  }

  lemma TakeStepOp(s: State, t: nat, c: nat, out: Ptr, inner: bool)
    requires Ready(s, t) && OpOK(s, t) && Takes(s.threads[t].op, c, out, if inner then KInner else KDrop)
    requires s.threads[t].op.pc.HLoad? ==> s.threads[t].call.Done?
    requires s.refs[out] > 0
    ensures var s' := SweepStep(s, t);
      t < |s'.threads| && (Takes(s'.threads[t].op, c, out, if inner then KInner else KDrop) || GivesUp(s, s', t, out, inner))
  {
    if HasObs(s.threads[t].op.pc) {
      HelpStays(s, t);
    } else if s.threads[t].op.pc.Pay? {
      PayTries(s, t, 0, 0);
    } else {
      SweepKeepsJob(s, t);
    }
  }

  lemma TakeStep(run: seq<State>, m: nat, t: nat, c: nat, out: Ptr, inner: bool)
    requires IsRun(run) && m + 1 < |run| && t < |run[m].threads| && Takes(run[m].threads[t].op, c, out, if inner then KInner else KDrop)
    ensures t < |run[m + 1].threads|
    ensures Takes(run[m + 1].threads[t].op, c, out, if inner then KInner else KDrop) || GivesUp(run[m], run[m + 1], t, out, inner)
  {
    var a := StepOf(run, m);
    var s := run[m];
    if Actor(a) != t {
      Others(s, a, t);
    } else {
      Unfold(s, t);
      if InCall(s.threads[t].call) {
        CallKeepsOp(s, t);
      } else {
        CallProofs.ThreadAlive(s, t, out);
        TakeStepOp(s, t, c, out, inner);
      }
    }
  }

  lemma {:induction false} TakeEnds(run: seq<State>, i: nat, m: nat, j: nat, t: nat, c: nat, out: Ptr, inner: bool)
    requires IsRun(run) && Working(run, i, j, t) && i < m < j && Takes(run[m].threads[t].op, c, out, if inner then KInner else KDrop)
    ensures GivesUp(run[j - 1], run[j], t, out, inner)
    decreases j - m
  {
    TakeStep(run, m, t, c, out, inner);
    if m + 1 < j { TakeEnds(run, i, m + 1, j, t, c, out, inner); }
  }

  /** The user takes the storage apart: it is gone at once, its value is swept for, and then the user gets
      exactly the reference that the storage held, or it is released. */
  lemma TakeCall(run: seq<State>, i: nat, j: nat, t: nat, c: nat, inner: bool)
    requires IsRun(run) && Begins(run, i, BeginTake(t, c, inner)) && Working(run, i, j, t)
    ensures IsLive(run[i], c) && c < |run[i + 1].cells| && !run[i + 1].cells[c].live
    ensures GivesUp(run[j - 1], run[j], t, run[i].cells[c].val, inner)
  {
    TakeEnds(run, i, i + 1, j, t, c, run[i].cells[c].val, inner);
  }

  // ---------------------------------------------------------------------------------------------
  // Creation of a storage, and references taken from guards

  /** A new storage holds the reference that the user gave away for it. */
  lemma NewCellCall(run: seq<State>, i: nat, p: Ptr)
    requires IsRun(run) && Begins(run, i, NewCell(p))
    ensures |run[i + 1].cells| == |run[i].cells| + 1 && Holds(run[i + 1], |run[i].cells|, p) && run[i].cells <= run[i + 1].cells
    ensures run[i].handles == Inc(run[i + 1].handles, p) && run[i + 1].refs == run[i].refs
  {
    assert Inc(Dec(run[i].handles, p), p) == run[i].handles;
  }

  /** A reference taken from a guard counts, and the guard stays what it is. */
  lemma CloneGuardCall(run: seq<State>, i: nat, g: nat)
    requires IsRun(run) && Begins(run, i, CloneGuard(g))
    ensures g < |run[i].guards| && run[i + 1].guards == run[i].guards && run[i].refs[run[i].guards[g].ptr] > 0
    ensures run[i + 1].handles == Inc(run[i].handles, run[i].guards[g].ptr)
    ensures run[i + 1].refs == Inc(run[i].refs, run[i].guards[g].ptr)
  {
    RunOK(run, i);
    Theorems.HeldAlive(run[i], g);
  }

  // ---------------------------------------------------------------------------------------------
  // Node::get

  predicate Searching(op: Op) { op.GHead? || op.GCheck? || op.GClaim? || op.GTop? || op.GPush? }

  /** The nodes above this one have been dealt with. */
  function Cursor(op: Op, n: nat): int
    requires Searching(op)
  {
    match op
    case GHead => n - 1
    case GCheck(k) => k
    case GClaim(k) => k
    case _ => -1
  }

  /** Thread `t` has looked at the claim of node `z`, and found it taken. */
  ghost predicate FoundTaken(run: seq<State>, i: nat, m: nat, t: nat, z: nat) {
    exists k :: i < k < m <= |run| && TakenAt(run, k, t, z)
  }

  ghost predicate TakenAt(run: seq<State>, k: nat, t: nat, z: nat) {
    && k + 1 < |run| && Moved(run[k], run[k + 1], t)
    && run[k].threads[t].op == GClaim(z) && z < |run[k].nodes| && !run[k].nodes[z].use.Unused?
  }

  /** Thread `t` has ended the cooldown of node `z`, or found that it cannot be ended. */
  ghost predicate CheckedCooldown(run: seq<State>, i: nat, m: nat, t: nat, z: nat) {
    exists k :: i < k < m <= |run| && CheckedAt(run, k, t, z)
  }

  ghost predicate CheckedAt(run: seq<State>, k: nat, t: nat, z: nat) {
    && k + 1 < |run| && t < |run[k].threads| && run[k].threads[t].op == GCheck(z)
    && t < |run[k + 1].threads| && run[k + 1].threads[t].op == GClaim(z)
    && z < |run[k + 1].nodes| && !(run[k + 1].nodes[z].use.Cooldown? && run[k + 1].nodes[z].writers == 0)
  }

  /** The end of the search: thread `t` owns node `z`, which was unused, or has just been made. */
  ghost predicate Gets(a: State, b: State, t: nat, z: nat, fresh_: bool) {
    && t < |a.threads| && t < |b.threads| && z < |b.nodes|
    && b.threads[t].op.Idle? && b.threads[t].node == z && b.nodes[z].use == Used(t)
    && (if fresh_ then z == |a.nodes| && b.head == z && b.nodes[z].next == a.head else z < |a.nodes| && a.nodes[z].use.Unused?)
  }

  lemma SearchStep(s: State, t: nat, fail: bool, n: nat)
    requires Ready(s, t) && Busying(s, t) && !InCall(s.threads[t].call) && Searching(s.threads[t].op) && OpOK(s, t)
    requires s.head == |s.nodes| - 1 && n <= |s.nodes|
    requires s.threads[t].op.GClaim? ==> s.nodes[s.threads[t].op.n].next == s.threads[t].op.n - 1
    ensures var s' := OpStep(s, t, fail); var op := s.threads[t].op;
      && t < |s'.threads|
      && (|| Gets(s, s', t, if op.GClaim? then op.n else |s.nodes|, !op.GClaim?)
          || (&& Searching(s'.threads[t].op)
              && (op.GHead? ==> Cursor(s'.threads[t].op, n) >= n - 1)
              && (op.GCheck? ==>
                    && s'.threads[t].op == GClaim(op.n) && op.n < |s'.nodes|
                    && !(s'.nodes[op.n].use.Cooldown? && s'.nodes[op.n].writers == 0))
              && (op.GClaim? ==> Cursor(s'.threads[t].op, n) == op.n - 1 && !s.nodes[op.n].use.Unused?)
              && (op.GTop? || op.GPush? ==> s'.threads[t].op.GPush?)
              && (s'.threads[t].op.GClaim? ==> op.GCheck?)))
      && (s'.threads[t].op.Idle? ==> op.GClaim? || op.GPush?)
  {
  }

  /** What thread `t` has done in its search so far; `n` nodes were there when it began. */
  ghost predicate Searched(run: seq<State>, i: nat, m: nat, t: nat, n: nat) {
    && m < |run| && t < |run[m].threads| && Searching(run[m].threads[t].op) && n <= |run[m].nodes|
    && (forall z: nat :: Cursor(run[m].threads[t].op, n) < z < n ==> FoundTaken(run, i, m, t, z) && CheckedCooldown(run, i, m, t, z))
    && (run[m].threads[t].op.GClaim? ==> CheckedCooldown(run, i, m, t, run[m].threads[t].op.n))
  }

  lemma SearchLater(run: seq<State>, i: nat, m: nat, t: nat, z: nat)
    requires m < |run|
    ensures FoundTaken(run, i, m, t, z) ==> FoundTaken(run, i, m + 1, t, z)
    ensures CheckedCooldown(run, i, m, t, z) ==> CheckedCooldown(run, i, m + 1, t, z)
  {
    if FoundTaken(run, i, m, t, z) { var k :| i < k < m && TakenAt(run, k, t, z); assert i < k < m + 1; }
    if CheckedCooldown(run, i, m, t, z) { var k :| i < k < m && CheckedAt(run, k, t, z); assert i < k < m + 1; }
  }

  lemma SearchMoves(run: seq<State>, m: nat, t: nat, n: nat) returns (fail: bool)
    requires IsRun(run) && m + 1 < |run| && t < |run[m].threads| && Searching(run[m].threads[t].op)
    ensures t < |run[m + 1].threads| && |run[m].nodes| <= |run[m + 1].nodes|
    ensures run[m + 1].threads[t] == run[m].threads[t] ||
      (&& Ready(run[m], t) && OpOK(run[m], t) && Busying(run[m], t) && !InCall(run[m].threads[t].call)
       && run[m].head == |run[m].nodes| - 1 && run[m + 1] == OpStep(run[m], t, fail)
       && (run[m].threads[t].op.GClaim? ==> run[m].nodes[run[m].threads[t].op.n].next == run[m].threads[t].op.n - 1))
  {
    var a := StepOf(run, m);
    NodesGrow(run, m);
    fail := a.Run? && a.fail;
    if Actor(a) != t {
      Others(run[m], a, t);
    } else {
      Unfold(run[m], t);
      if run[m].threads[t].op.GClaim? { assert NodeOK(run[m], run[m].threads[t].op.n); }
    }
  }

  /** The outcome of a search that began with `n` nodes. */
  ghost predicate Found(run: seq<State>, i: nat, m: nat, t: nat, n: nat) {
    && m + 1 < |run| && t < |run[m].threads| && t < |run[m + 1].threads| && 0 <= run[m + 1].threads[t].node
    && Gets(run[m], run[m + 1], t, run[m + 1].threads[t].node, run[m].threads[t].op.GPush?)
    && (run[m].threads[t].op.GPush? ==> AllTried(run, i, m, t, n))
  }

  ghost predicate AllTried(run: seq<State>, i: nat, m: nat, t: nat, n: nat) {
    forall z: nat :: z < n ==> FoundTaken(run, i, m, t, z) && CheckedCooldown(run, i, m, t, z)
  }

  lemma NextSearched(run: seq<State>, i: nat, m: nat, m': nat, t: nat, n: nat)
    requires i < m && m' == m + 1 < |run| && Searched(run, i, m, t, n)
    requires t < |run[m + 1].threads| && Searching(run[m + 1].threads[t].op) && n <= |run[m + 1].nodes|
    requires var op, op' := run[m].threads[t].op, run[m + 1].threads[t].op;
      && (op.GHead? ==> Cursor(op', n) >= n - 1)
      && (op.GCheck? ==> op' == GClaim(op.n) && CheckedAt(run, m, t, op.n))
      && (op.GClaim? ==> Cursor(op', n) == op.n - 1 && TakenAt(run, m, t, op.n))
      && (op.GTop? || op.GPush? ==> op'.GPush?)
      && (op'.GClaim? ==> op.GCheck?)
    ensures Searched(run, i, m', t, n)
  {
    AllLater(run, i, m, m', t);
    var op := run[m].threads[t].op;
    if op.GCheck? { assert CheckedCooldown(run, i, m', t, op.n); }
    if op.GClaim? { assert FoundTaken(run, i, m', t, op.n); }
  }

  lemma SearchGoesOn(run: seq<State>, i: nat, m: nat, t: nat, n: nat)
    requires IsRun(run) && i < m && m + 1 < |run| && Searched(run, i, m, t, n)
    ensures Searched(run, i, m + 1, t, n) || Found(run, i, m, t, n)
  {
    var fail := SearchMoves(run, m, t, n);
    var op := run[m].threads[t].op;
    if run[m + 1].threads[t] == run[m].threads[t] {
      AllLater(run, i, m, m + 1, t);
    } else {
      SearchStep(run[m], t, fail, n);
      if run[m + 1].threads[t].op.Idle? {
        if op.GPush? { assert AllTried(run, i, m, t, n); }
      } else {
        if op.GCheck? { assert CheckedAt(run, m, t, op.n); }
        if op.GClaim? { assert TakenAt(run, m, t, op.n); }
        NextSearched(run, i, m, m + 1, t, n);
      }
    }
  }

  lemma AllLater(run: seq<State>, i: nat, m: nat, m': nat, t: nat)
    requires m < |run| && m' == m + 1
    ensures forall z: nat :: FoundTaken(run, i, m, t, z) ==> FoundTaken(run, i, m', t, z)
    ensures forall z: nat :: CheckedCooldown(run, i, m, t, z) ==> CheckedCooldown(run, i, m', t, z)
  {
    forall z: nat | FoundTaken(run, i, m, t, z) ensures FoundTaken(run, i, m', t, z) { SearchLater(run, i, m, t, z); }
    forall z: nat | CheckedCooldown(run, i, m, t, z) ensures CheckedCooldown(run, i, m', t, z) { SearchLater(run, i, m, t, z); }
  }

  lemma {:induction false} SearchEnds(run: seq<State>, i: nat, m: nat, j: nat, t: nat, n: nat)
    requires IsRun(run) && Working(run, i, j, t) && i < m < j && Searched(run, i, m, t, n)
    ensures Found(run, i, j - 1, t, n)
    decreases j - m
  {
    SearchGoesOn(run, i, m, t, n);
    if Searched(run, i, m + 1, t, n) {
      SearchEnds(run, i, m + 1, j, t, n);
    }
  }

  /** `Node::get`: the thread ends up as the owner of a node that nobody used, or of a new one at the head of
      the list.  It makes a new one only after trying every node that existed when it began: each of them was
      checked for the end of its cooldown, and then found taken. */
  lemma GetCall(run: seq<State>, i: nat, j: nat, t: nat) returns (z: nat, made: bool)
    requires IsRun(run) && Begins(run, i, BeginGet(t)) && Working(run, i, j, t)
    ensures Gets(run[j - 1], run[j], t, z, made)
    ensures made ==> AllTried(run, i, j - 1, t, |run[i].nodes|)
  {
    SearchEnds(run, i, i + 1, j, t, |run[i].nodes|);
    z, made := run[j].threads[t].node, run[j - 1].threads[t].op.GPush?;
  }

  /** A new node is published whenever the head is the one last seen and the exchange does not fail for no
      reason. */
  lemma PushSucceeds(s: State, t: nat)
    requires Inv(s) && t < |s.threads| && s.threads[t].op.GPush? && s.threads[t].op.h == s.head
    ensures Enabled(s, Run(t, false)) && Gets(s, Apply(s, Run(t, false)), t, |s.nodes|, true)
  {
    Unfold(s, t);
    InvShape(s);
  }

  // ---------------------------------------------------------------------------------------------
  // LocalNode::drop

  /** Thread `t` is giving up node `n`. */
  ghost predicate Leaving(run: seq<State>, i: nat, m: nat, t: nat, n: nat) {
    && i < m < |run| && t < |run[m].threads|
    && var th := run[m].threads[t];
       || ((th.op.XReserve? || th.op.XSwap?) && th.node == n)
       || ((th.op.XRelease? || th.op.Exited?) && th.node == -1 && (th.op.XRelease? ==> th.op.n == n) && exists k :: CooledAt(run, i, k, m, t, n))
  }

  /** After `k` thread `t` puts its node into cooldown. */
  ghost predicate CooledAt(run: seq<State>, i: nat, k: nat, m: nat, t: nat, n: nat) {
    && i < k < m < |run| && n < |run[k].nodes| && n < |run[k + 1].nodes|
    && run[k].nodes[n].use == Used(t) && run[k + 1].nodes[n].use == Cooldown && run[k].nodes[n].writers > 0
  }

  lemma LeaveStep(s: State, t: nat)
    requires Ready(s, t) && ThreadOK(s, t) && (s.threads[t].op.XReserve? || s.threads[t].op.XSwap? || s.threads[t].op.XRelease?)
    requires Busying(s, t) && !InCall(s.threads[t].call)
    requires 0 <= s.threads[t].node ==> NodeOK(s, s.threads[t].node)
    ensures var s' := OpStep(s, t, false); var op := s.threads[t].op;
      && t < |s'.threads|
      && (op.XReserve? ==> s'.threads[t].op.XSwap? && s'.threads[t].node == s.threads[t].node)
      && (op.XSwap? ==>
            && s'.threads[t].op == XRelease(s.threads[t].node) && s'.threads[t].node == -1
            && s.nodes[s.threads[t].node].use == Used(t) && s.nodes[s.threads[t].node].writers > 0
            && s.threads[t].node < |s'.nodes| && s'.nodes[s.threads[t].node].use == Cooldown)
      && (op.XRelease? ==> s'.threads[t].op.Exited? && s'.threads[t].node == -1)
  {
    if s.threads[t].op.XSwap? {
      assert InsideOf(s.threads[t].op, s.threads[t].node, s.threads[t].node);
      assert t in s.nodes[s.threads[t].node].inside;
    }
  }

  lemma LeaveGoesOn(run: seq<State>, i: nat, m: nat, t: nat, n: nat)
    requires IsRun(run) && Leaving(run, i, m, t, n) && m + 1 < |run|
    ensures Leaving(run, i, m + 1, t, n)
  {
    var th := run[m].threads[t];
    if th.node == -1 {
      var k :| CooledAt(run, i, k, m, t, n);
      assert CooledAt(run, i, k, m + 1, t, n);
    }
    LeaveMoves(run, m, t);
    if th.op.XSwap? && run[m + 1].threads[t] != th { assert CooledAt(run, i, m, m + 1, t, n); }
  }

  /** One step, seen from a thread that gives up its node. */
  lemma LeaveMoves(run: seq<State>, m: nat, t: nat)
    requires IsRun(run) && m + 1 < |run| && t < |run[m].threads|
    requires var op := run[m].threads[t].op; op.XReserve? || op.XSwap? || op.XRelease? || op.Exited?
    ensures t < |run[m + 1].threads|
    ensures var x, y, n := run[m].threads[t], run[m + 1].threads[t], run[m].threads[t].node;
      || y == x
      || (x.op.XReserve? && y.op.XSwap? && y.node == n)
      || (&& x.op.XSwap? && y.op.XRelease? && 0 <= n < |run[m].nodes| && y.op.n == n && y.node == -1 && n < |run[m + 1].nodes|
          && run[m].nodes[n].use == Used(t) && run[m].nodes[n].writers > 0 && run[m + 1].nodes[n].use == Cooldown)
      || (x.op.XRelease? && y.op.Exited? && y.node == -1)
  {
    var a := StepOf(run, m);
    if Actor(a) != t {
      Others(run[m], a, t);
    } else {
      Unfold(run[m], t);
      LeaveStep(run[m], t);
    }
  }

  /** A thread that ends gives up its node: at one moment, while it counts itself among the node's writers, it
      puts the node into cooldown, and it never has a node again. */
  lemma {:induction false} ExitCall(run: seq<State>, i: nat, j: nat, t: nat)
    requires IsRun(run) && Begins(run, i, BeginExit(t)) && i < j < |run|
    ensures 0 <= run[i].threads[t].node && Leaving(run, i, j, t, run[i].threads[t].node)
    decreases j
  {
    if j > i + 1 {
      ExitCall(run, i, j - 1, t);
      LeaveGoesOn(run, i, j - 1, t, run[i].threads[t].node);
    }
  }
}
