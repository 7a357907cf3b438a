/** What `compare_and_swap` and `swap` do from their beginning to their end. */
module Writes {
  import opened Protocol
  import opened Steps
  import opened Invariant
  import opened Moves
  import opened Preservation
  import opened Runs
  import opened Progress
  import opened Sweeps

  // ---------------------------------------------------------------------------------------------
  // compare_and_swap

  /** The operation still looks for its moment, or has given up. */
  predicate Seeks(op: Op, c: nat, cur: Ptr, nv: Ptr) {
    match op
    case CLoad(d, q, r) => d == c && q == cur && r == nv
    case CTry(d, q, r, _) => d == c && q == cur && r == nv
    case CRetry(d, q, r) => d == c && q == cur && r == nv
    case CKeep(q, r, _) => q == cur && r == nv
    case _ => false
  }

  /** The operation has stored, and pays debts for what it took out. */
  predicate Settles(op: Op, c: nat, cur: Ptr) {
    op.Sweeping? && op.job.kind.KCas? && op.job.cell == c && op.job.out == cur
  }

  /** From `a` to `b` thread `t` stores `nv` over `cur`. */
  ghost predicate StoresOver(a: State, b: State, t: nat, c: nat, cur: Ptr, nv: Ptr) {
    && t < |a.threads| && t < |b.threads| && c < |a.cells| && c < |b.cells|
    && a.threads[t].op.CTry? && Settles(b.threads[t].op, c, cur)
    && Holds(a, c, cur) && Holds(b, c, nv) && b.cells[c].hist == a.cells[c].hist + [nv]
  }

  /** The operation returns the guard `g` that it held. */
  ghost predicate Returns(a: State, b: State, t: nat, g: nat) {
    && t < |a.threads| && t < |b.threads| && g < |a.guards| && g < |b.guards|
    && OpHolds(a.threads[t].op, g) && a.guards[g].status == Held(t)
    && b.threads[t].op.Idle? && b.guards[g].status.Loose? && b.guards[g].ptr == a.guards[g].ptr
  }

  lemma SeekStep(s: State, t: nat, fail: bool, c: nat, cur: Ptr, nv: Ptr)
    requires Ready(s, t) && ThreadOK(s, t) && Busying(s, t) && !InCall(s.threads[t].call) && Seeks(s.threads[t].op, c, cur, nv)
    ensures var s' := OpStep(s, t, fail);
      && t < |s'.threads|
      && (|| Seeks(s'.threads[t].op, c, cur, nv)
          || StoresOver(s, s', t, c, cur, nv)
          || (s.threads[t].op.CKeep? && Returns(s, s', t, s.threads[t].op.g) && s.guards[s.threads[t].op.g].ptr != cur))
  {
  }

  lemma SettleStepOp(s: State, t: nat, c: nat, cur: Ptr)
    requires Ready(s, t) && OpOK(s, t) && Settles(s.threads[t].op, c, cur)
    requires s.threads[t].op.pc.HLoad? ==> s.threads[t].call.Done?
    ensures var s' := SweepStep(s, t);
      && t < |s'.threads|
      && (|| Settles(s'.threads[t].op, c, cur)
          || (s.threads[t].op.pc.Swept? && Returns(s, s', t, s.threads[t].op.job.kind.g) && s.guards[s.threads[t].op.job.kind.g].ptr == cur))
  {
    if HasObs(s.threads[t].op.pc) {
      HelpStays(s, t);
    } else if s.threads[t].op.pc.Pay? {
      PayTries(s, t, 0, 0);
    } else {
      SweepKeepsJob(s, t);
    }
  }

  /** One step of a run, seen from a `compare_and_swap` of thread `t`. */
  ghost predicate CasStep(a: State, b: State, t: nat, c: nat, cur: Ptr, nv: Ptr) {
    && t < |a.threads| && t < |b.threads|
    && (Seeks(a.threads[t].op, c, cur, nv) ==>
          || Seeks(b.threads[t].op, c, cur, nv)
          || StoresOver(a, b, t, c, cur, nv)
          || (exists g: nat :: Returns(a, b, t, g) && a.guards[g].ptr != cur))
    && (Settles(a.threads[t].op, c, cur) ==>
          || Settles(b.threads[t].op, c, cur)
          || (exists g: nat :: Returns(a, b, t, g) && a.guards[g].ptr == cur))
  }

  lemma CasSteps(run: seq<State>, k: nat, t: nat, c: nat, cur: Ptr, nv: Ptr)
    requires IsRun(run) && k + 1 < |run| && t < |run[k].threads|
    requires Seeks(run[k].threads[t].op, c, cur, nv) || Settles(run[k].threads[t].op, c, cur)
    ensures CasStep(run[k], run[k + 1], t, c, cur, nv)
  {
    var a := StepOf(run, k);
    var s := run[k];
    if Actor(a) != t {
      Others(s, a, t);
    } else {
      assert ThreadOK(s, t);
      Unfold(s, t);
      if InCall(s.threads[t].call) {
        CallKeepsOp(s, t);
      } else if s.threads[t].op.Sweeping? {
        SettleStepOp(s, t, c, cur);
      } else {
        SeekStep(s, t, a.fail, c, cur, nv);
      }
    }
  }

  ghost function StoreCount(run: seq<State>, i: nat, j: nat, t: nat, c: nat, cur: Ptr, nv: Ptr): nat
    requires i <= j < |run|
    decreases j - i
  {
    if i == j then 0
    else StoreCount(run, i, j - 1, t, c, cur, nv) + (if StoresOver(run[j - 1], run[j], t, c, cur, nv) then 1 else 0)
  }

  lemma {:induction false} CasSoFar(run: seq<State>, i: nat, j: nat, t: nat, c: nat, cur: Ptr, nv: Ptr)
    requires IsRun(run) && i <= j < |run| && t < |run[i].threads| && run[i].threads[t].op == CLoad(c, cur, nv)
    requires forall m :: i <= m <= j ==> t < |run[m].threads| && !run[m].threads[t].op.Idle?
    ensures var n := StoreCount(run, i, j, t, c, cur, nv);
      (n == 0 && Seeks(run[j].threads[t].op, c, cur, nv)) || (n == 1 && Settles(run[j].threads[t].op, c, cur))
    decreases j - i
  {
    if i < j {
      CasSoFar(run, i, j - 1, t, c, cur, nv);
      CasSteps(run, j - 1, t, c, cur, nv);
    }
  }

  lemma CasOutcome(run: seq<State>, i: nat, j: nat, t: nat, c: nat, cur: Ptr, nv: Ptr) returns (g: nat)
    requires IsRun(run) && i < j < |run| && t < |run[i].threads| && run[i].threads[t].op == CLoad(c, cur, nv)
    requires forall m :: i <= m < j ==> t < |run[m].threads| && !run[m].threads[t].op.Idle?
    requires t < |run[j].threads| && run[j].threads[t].op.Idle?
    ensures Returns(run[j - 1], run[j], t, g)
    ensures StoreCount(run, i, j, t, c, cur, nv) <= 1
    ensures run[j].guards[g].ptr == cur <==> StoreCount(run, i, j, t, c, cur, nv) == 1
  {
    CasSoFar(run, i, j - 1, t, c, cur, nv);
    CasSteps(run, j - 1, t, c, cur, nv);
    if StoreCount(run, i, j - 1, t, c, cur, nv) == 0 {
      g :| Returns(run[j - 1], run[j], t, g) && run[j - 1].guards[g].ptr != cur;
    } else {
      g :| Returns(run[j - 1], run[j], t, g) && run[j - 1].guards[g].ptr == cur;
    }
  }

  // ---------------------------------------------------------------------------------------------
  // The pointer that `compare_and_swap` returns

  lemma CallGuards(s: State, u: nat, g: nat)
    requires Ready(s, u) && InCall(s.threads[u].call) && g < |s.guards| && !(HasGuard(s.threads[u].call) && s.threads[u].call.g == g)
    ensures g < |CallStep(s, u).guards| && CallStep(s, u).guards[g].ptr == s.guards[g].ptr
  {
    var c := s.threads[u].call;
    if HasDebt(c) { assert NodeShape(s, s.guards[c.g].debt.node); }
  }

  lemma SweepGuards(s: State, u: nat, g: nat)
    requires Ready(s, u) && s.threads[u].op.Sweeping? && (s.threads[u].op.pc.HLoad? ==> s.threads[u].call.Done?) && g < |s.guards|
    ensures g < |SweepStep(s, u).guards| && SweepStep(s, u).guards[g].ptr == s.guards[g].ptr
  {
    if s.threads[u].op.pc.Pay? { assert NodeShape(s, s.threads[u].op.pc.n); }
  }

  lemma OpGuards(s: State, u: nat, fail: bool, g: nat)
    requires Ready(s, u) && Busying(s, u) && !InCall(s.threads[u].call) && g < |s.guards|
    ensures g < |OpStep(s, u, fail).guards| && OpStep(s, u, fail).guards[g].ptr == s.guards[g].ptr
  {
    if s.threads[u].op.Sweeping? { SweepGuards(s, u, g); }
  }

  /** Nobody changes the pointer of a guard that is in the hands of thread `t`. */
  lemma GuardKeepsPtr(s: State, a: Action, t: nat, g: nat)
    requires Inv(s) && Enabled(s, a) && HeldGuard(s, t, g)
    requires Actor(a) != t || (t < |s.threads| && !InCall(s.threads[t].call))
    ensures g < |Apply(s, a).guards| && Apply(s, a).guards[g].ptr == s.guards[g].ptr
  {
    if a.Run? { RunKeepsPtr(s, a.t, a.fail, t, g); }
  }

  lemma RunKeepsPtr(s: State, u: nat, fail: bool, t: nat, g: nat)
    requires Inv(s) && Enabled(s, Run(u, fail)) && HeldGuard(s, t, g)
    requires u != t || (t < |s.threads| && !InCall(s.threads[t].call))
    ensures g < |Apply(s, Run(u, fail)).guards| && Apply(s, Run(u, fail)).guards[g].ptr == s.guards[g].ptr
  {
    Unfold(s, u);
    if InCall(s.threads[u].call) {
      OthersGuard(s, u, t, g);
      CallGuards(s, u, g);
    } else {
      OpGuards(s, u, fail, g);
    }
  }

  /** A call works on a guard of its own thread. */
  lemma OthersGuard(s: State, u: nat, t: nat, g: nat)
    requires u < |s.threads| && CallOK(s, u) && HeldGuard(s, t, g) && u != t
    ensures !(HasGuard(s.threads[u].call) && s.threads[u].call.g == g)
  {
  }

  /** The cell held `p` at some moment after `i`. */
  ghost predicate HeldSince(run: seq<State>, i: nat, m: nat, c: nat, p: Ptr) {
    exists k :: i < k <= m < |run| && Holds(run[k], c, p)
  }

  /** A load of cell `c` that began at `b` is under way. */
  ghost predicate OpenLoad(run: seq<State>, b: nat, m: nat, t: nat, ask: Ask) {
    && b < m < |run| && t < |run[b].threads| && !InCall(run[b].threads[t].call)
    && (forall x :: b < x <= m ==> t < |run[x].threads| && InCall(run[x].threads[t].call))
    && t < |run[b + 1].threads| && run[b + 1].threads[t].call == LStart(ask)
  }

  ghost predicate Sees(run: seq<State>, i: nat, m: nat, t: nat, c: nat) {
    && i < m < |run| && t < |run[m].threads|
    && var th := run[m].threads[t];
       match th.op
       case CLoad(_, _, _) =>
         if InCall(th.call) then exists b: nat, ask :: i <= b && OpenLoad(run, b, m, t, ask) && ask.cell == c
         else th.call.Done? && th.call.g < |run[m].guards| && HeldSince(run, i, m, c, run[m].guards[th.call.g].ptr)
       case CTry(_, _, _, g) => g < |run[m].guards| && HeldSince(run, i, m, c, run[m].guards[g].ptr)
       case CKeep(_, _, g) => g < |run[m].guards| && HeldSince(run, i, m, c, run[m].guards[g].ptr)
       case _ => true
  }

  lemma CasLoads(s: State, t: nat)
    requires t < |s.threads| && OwnOK(s, t) && CallOK(s, t) && s.threads[t].op.CLoad?
    ensures InCall(s.threads[t].call) || (s.threads[t].call.Done? && s.threads[t].call.g < |s.guards|)
  {
  }

  lemma OpenLoadGoesOn(run: seq<State>, i: nat, b: nat, m: nat, t: nat, ask: Ask)
    requires IsRun(run) && i <= b && OpenLoad(run, b, m, t, ask) && m + 1 < |run| && run[m].threads[t].op.CLoad?
    requires t < |run[m + 1].threads|
    ensures Sees(run, i, m + 1, t, ask.cell)
  {
    RetryGoesOn(run, m, t);
    HoldsItsGuard(run, m + 1, t);
    CasLoads(run[m + 1], t);
    if InCall(run[m + 1].threads[t].call) {
      assert OpenLoad(run, b, m + 1, t, ask);
    } else {
      assert LoadRuns(run, b, m + 1, t, ask);
      LoadReturnsHeldValue(run, b, m + 1, t, ask);
      var k :| b < k <= m + 1 && Holds(run[k], ask.cell, run[m + 1].guards[run[m + 1].threads[t].call.g].ptr);
    }
  }

  /** The thread holds a guard and does not run a call: its pointer stays. */
  lemma HeldGoesOn(run: seq<State>, i: nat, m: nat, t: nat, c: nat, g: nat)
    requires IsRun(run) && m + 1 < |run| && t < |run[m].threads| && !InCall(run[m].threads[t].call)
    requires HeldGuard(run[m], t, g) && HeldSince(run, i, m, c, run[m].guards[g].ptr)
    ensures g < |run[m + 1].guards| && HeldSince(run, i, m + 1, c, run[m + 1].guards[g].ptr)
  {
    var a := StepOf(run, m);
    GuardKeepsPtr(run[m], a, t, g);
    var k :| i < k <= m < |run| && Holds(run[k], c, run[m].guards[g].ptr);
    assert Holds(run[k], c, run[m + 1].guards[g].ptr);
  }

  /** How one step moves a `compare_and_swap` of thread `t`. */
  lemma SeekMoves(run: seq<State>, m: nat, t: nat, c: nat, cur: Ptr, nv: Ptr)
    requires IsRun(run) && m + 1 < |run| && t < |run[m].threads| && t < |run[m + 1].threads|
    requires Seeks(run[m].threads[t].op, c, cur, nv) && !InCall(run[m].threads[t].call)
    ensures var x, y := run[m].threads[t], run[m + 1].threads[t];
      || y == x
      || (x.op.CLoad? && x.call.Done? && y.call.NoCall? && (y.op == CKeep(cur, nv, x.call.g) || y.op == CTry(c, cur, nv, x.call.g)))
      || (x.op.CTry? && (y.op.Sweeping? || y.op.CRetry?))
      || (x.op.CRetry? && y.op.CLoad? && y.call.LStart? && y.call.ask.cell == c)
      || (x.op.CKeep? && y.op.Idle?)
  {
    var a := StepOf(run, m);
    var s := run[m];
    assert ThreadOK(s, t);
    if Actor(a) != t { Others(s, a, t); } else { Unfold(s, t); }
  }

  lemma SeesGoesOn(run: seq<State>, i: nat, m: nat, t: nat, c: nat, cur: Ptr, nv: Ptr)
    requires IsRun(run) && m + 1 < |run| && Sees(run, i, m, t, c) && Seeks(run[m].threads[t].op, c, cur, nv)
    requires t < |run[m + 1].threads|
    ensures Sees(run, i, m + 1, t, c)
  {
    var th := run[m].threads[t];
    if InCall(th.call) {
      if th.op.CLoad? {
        var b: nat, ask :| i <= b && OpenLoad(run, b, m, t, ask) && ask.cell == c;
        OpenLoadGoesOn(run, i, b, m, t, ask);
      } else {
        RetryGoesOn(run, m, t);
      }
    } else {
      SeekMoves(run, m, t, c, cur, nv);
      HoldsItsGuard(run, m, t);
      if th.op.CLoad? { HeldGoesOn(run, i, m, t, c, th.call.g); }
      if th.op.CTry? || th.op.CKeep? { HeldGoesOn(run, i, m, t, c, th.op.g); }
      if th.op.CRetry? && run[m + 1].threads[t].op.CLoad? {
        assert OpenLoad(run, m, m + 1, t, run[m + 1].threads[t].call.ask);
      }
    }
  }

  lemma HoldsItsGuard(run: seq<State>, m: nat, t: nat)
    requires IsRun(run) && m < |run| && t < |run[m].threads|
    ensures ThreadOK(run[m], t)
  {
    RunOK(run, m);
  }

  lemma RetryGoesOn(run: seq<State>, m: nat, t: nat)
    requires IsRun(run) && m + 1 < |run| && t < |run[m].threads| && t < |run[m + 1].threads|
    requires InCall(run[m].threads[t].call)
    ensures run[m + 1].threads[t].op == run[m].threads[t].op
    ensures ThreadOK(run[m], t)
  {
    var a := StepOf(run, m);
    var s := run[m];
    assert ThreadOK(s, t);
    if Actor(a) != t {
      Others(s, a, t);
    } else {
      Unfold(s, t);
      CallKeepsOp(s, t);
    }
  }

  // ---------------------------------------------------------------------------------------------
  // compare_and_swap as one atomic operation

  /** The user calls `compare_and_swap` after `i`, and it has returned at `j`. */
  ghost predicate CasRuns(run: seq<State>, i: nat, j: nat, t: nat, c: nat, cur: Ptr, nv: Ptr) {
    Begins(run, i, BeginCas(t, c, cur, nv)) && Working(run, i, j, t)
  }

  lemma CasOpens(run: seq<State>, i: nat, j: nat, t: nat, c: nat, cur: Ptr, nv: Ptr)
    requires IsRun(run) && CasRuns(run, i, j, t, c, cur, nv)
    ensures i + 1 < j && t < |run[i + 1].threads| && run[i + 1].threads[t].op == CLoad(c, cur, nv)
    ensures Sees(run, i, i + 1, t, c)
  {
    assert OpenLoad(run, i, i + 1, t, run[i + 1].threads[t].call.ask);
  }

  /** An operation that seeks has been seeking before. */
  lemma SeeksBefore(run: seq<State>, i: nat, j: nat, t: nat, c: nat, cur: Ptr, nv: Ptr, m: nat)
    requires IsRun(run) && CasRuns(run, i, j, t, c, cur, nv) && i < m && m + 1 < j
    ensures Seeks(run[m + 1].threads[t].op, c, cur, nv) ==> Seeks(run[m].threads[t].op, c, cur, nv)
  {
    CasOpens(run, i, j, t, c, cur, nv);
    CasSoFar(run, i + 1, m, t, c, cur, nv);
    CasSteps(run, m, t, c, cur, nv);
  }

  lemma {:induction false} CasSees(run: seq<State>, i: nat, j: nat, t: nat, c: nat, cur: Ptr, nv: Ptr, m: nat)
    requires IsRun(run) && CasRuns(run, i, j, t, c, cur, nv) && i < m < j
    ensures Seeks(run[m].threads[t].op, c, cur, nv) ==> Sees(run, i, m, t, c)
    decreases m
  {
    CasOpens(run, i, j, t, c, cur, nv);
    if m > i + 1 {
      CasSees(run, i, j, t, c, cur, nv, m - 1);
      SeeksBefore(run, i, j, t, c, cur, nv, m - 1);
      if Seeks(run[m - 1].threads[t].op, c, cur, nv) { SeesGoesOn(run, i, m - 1, t, c, cur, nv); }
    }
  }

  lemma {:induction false} StoreMoment(run: seq<State>, i: nat, j: nat, t: nat, c: nat, cur: Ptr, nv: Ptr) returns (k: nat)
    requires i <= j < |run| && StoreCount(run, i, j, t, c, cur, nv) > 0
    ensures i <= k < j && StoresOver(run[k], run[k + 1], t, c, cur, nv)
    decreases j - i
  {
    if StoresOver(run[j - 1], run[j], t, c, cur, nv) {
      k := j - 1;
    } else {
      k := StoreMoment(run, i, j - 1, t, c, cur, nv);
    }
  }

  /** `compare_and_swap` returns a pointer equal to `current` exactly when it stored `new`, and it
      stores at most once, over `current`. */
  lemma CasStoresIffEqual(run: seq<State>, i: nat, j: nat, t: nat, c: nat, cur: Ptr, nv: Ptr) returns (g: nat)
    requires IsRun(run) && CasRuns(run, i, j, t, c, cur, nv)
    ensures Returns(run[j - 1], run[j], t, g)
    ensures StoreCount(run, i, j, t, c, cur, nv) <= 1
    ensures run[j].guards[g].ptr == cur <==> StoreCount(run, i, j, t, c, cur, nv) == 1
  {
    CasOpens(run, i, j, t, c, cur, nv);
    g := CasOutcome(run, i + 1, j, t, c, cur, nv);
    CountFromNext(run, i, j, t, c, cur, nv);
  }

  /** The step in which a `compare_and_swap` begins stores nothing. */
  lemma {:induction false} CountFromNext(run: seq<State>, i: nat, j: nat, t: nat, c: nat, cur: Ptr, nv: Ptr)
    requires i < j < |run| && t < |run[i].threads| && run[i].threads[t].op.Idle?
    ensures StoreCount(run, i, j, t, c, cur, nv) == StoreCount(run, i + 1, j, t, c, cur, nv)
    decreases j - i
  {
    if i + 1 < j { CountFromNext(run, i, j - 1, t, c, cur, nv); }
  }

  /** `compare_and_swap` is atomic: it returns the pointer that the cell held at one moment `k` of the
      call.  If that is `current`, then `new` was stored over it at `k`, and only then; otherwise
      nothing was stored. */
  lemma CasIsAtomic(run: seq<State>, i: nat, j: nat, t: nat, c: nat, cur: Ptr, nv: Ptr) returns (g: nat, k: nat)
    requires IsRun(run) && CasRuns(run, i, j, t, c, cur, nv)
    ensures Returns(run[j - 1], run[j], t, g)
    ensures i < k < j && Holds(run[k], c, run[j].guards[g].ptr)
    ensures run[j].guards[g].ptr == cur ==>
      StoresOver(run[k], run[k + 1], t, c, cur, nv) && StoreCount(run, i, j, t, c, cur, nv) == 1
    ensures run[j].guards[g].ptr != cur ==> StoreCount(run, i, j, t, c, cur, nv) == 0
  {
    g := CasStoresIffEqual(run, i, j, t, c, cur, nv);
    CasOpens(run, i, j, t, c, cur, nv);
    CountFromNext(run, i, j, t, c, cur, nv);
    if run[j].guards[g].ptr == cur {
      k := StoreMoment(run, i + 1, j, t, c, cur, nv);
    } else {
      CasSoFar(run, i + 1, j - 1, t, c, cur, nv);
      CasSees(run, i, j, t, c, cur, nv, j - 1);
      k :| i < k <= j - 1 < |run| && Holds(run[k], c, run[j - 1].guards[g].ptr);
    }
  }

  // ---------------------------------------------------------------------------------------------
  // swap as one atomic operation

  /** From `a` to `b` thread `t` exchanges `nv` for `out` in cell `c`. */
  ghost predicate Exchanges(a: State, b: State, t: nat, c: nat, nv: Ptr, out: Ptr) {
    && t < |a.threads| && t < |b.threads| && c < |a.cells| && c < |b.cells|
    && a.threads[t].op == Swapping(c, nv) && Gives(b.threads[t].op, c, out)
    && Holds(a, c, out) && Holds(b, c, nv) && b.cells[c].hist == a.cells[c].hist + [nv]
  }

  /** The operation has swapped `out` out of `c`, and pays its debts. */
  predicate Gives(op: Op, c: nat, out: Ptr) {
    op.Sweeping? && op.job.kind.KSwap? && op.job.cell == c && op.job.out == out
  }

  /** From `a` to `b` the operation hands one reference to `p` to the user. */
  ghost predicate HandsOut(a: State, b: State, t: nat, p: Ptr) {
    t < |b.threads| && b.threads[t].op.Idle? && b.handles == Inc(a.handles, p)
  }

  lemma SwapStepOp(s: State, t: nat, c: nat, out: Ptr)
    requires Ready(s, t) && OpOK(s, t) && Gives(s.threads[t].op, c, out)
    requires s.threads[t].op.pc.HLoad? ==> s.threads[t].call.Done?
    ensures var s' := SweepStep(s, t);
      t < |s'.threads| && (Gives(s'.threads[t].op, c, out) || HandsOut(s, s', t, out))
  {
    if HasObs(s.threads[t].op.pc) {
      HelpStays(s, t);
    } else if s.threads[t].op.pc.Pay? {
      PayTries(s, t, 0, 0);
    } else {
      SweepKeepsJob(s, t);
    }
  }

  lemma SwapSteps(run: seq<State>, k: nat, t: nat, c: nat, nv: Ptr, out: Ptr)
    requires IsRun(run) && k + 1 < |run| && t < |run[k].threads| && t < |run[k + 1].threads|
    ensures run[k].threads[t].op == Swapping(c, nv) ==>
      run[k + 1].threads[t].op == Swapping(c, nv) ||
      (c < |run[k].cells| && Exchanges(run[k], run[k + 1], t, c, nv, run[k].cells[c].val))
    ensures Gives(run[k].threads[t].op, c, out) ==>
      Gives(run[k + 1].threads[t].op, c, out) || HandsOut(run[k], run[k + 1], t, out)
  {
    var a := StepOf(run, k);
    var s := run[k];
    if Actor(a) != t {
      Others(s, a, t);
    } else if s.threads[t].op == Swapping(c, nv) || Gives(s.threads[t].op, c, out) {
      assert ThreadOK(s, t);
      Unfold(s, t);
      if InCall(s.threads[t].call) {
        CallKeepsOp(s, t);
      } else if s.threads[t].op.Sweeping? {
        SwapStepOp(s, t, c, out);
      }
    }
  }

  lemma {:induction false} SwapSoFar(run: seq<State>, i: nat, j: nat, t: nat, c: nat, nv: Ptr) returns (k: nat)
    requires IsRun(run) && i <= j < |run| && t < |run[i].threads| && run[i].threads[t].op == Swapping(c, nv)
    requires forall m :: i <= m <= j ==> t < |run[m].threads| && !run[m].threads[t].op.Idle?
    ensures i <= k <= j
    ensures k == j ==> run[j].threads[t].op == Swapping(c, nv)
    ensures k < j ==> c < |run[k].cells| && Exchanges(run[k], run[k + 1], t, c, nv, run[k].cells[c].val) &&
                      Gives(run[j].threads[t].op, c, run[k].cells[c].val)
    decreases j - i
  {
    k := j;
    if i < j {
      k := SwapSoFar(run, i, j - 1, t, c, nv);
      SwapSteps(run, j - 1, t, c, nv, if k < j - 1 then run[k].cells[c].val else 0);
      if k == j - 1 && run[j].threads[t].op == Swapping(c, nv) { k := j; }
    }
  }

  /** The user calls `swap` after `i`, and it has returned at `j`. */
  ghost predicate SwapRuns(run: seq<State>, i: nat, j: nat, t: nat, c: nat, nv: Ptr) {
    Begins(run, i, BeginSwap(t, c, nv)) && Working(run, i, j, t)
  }

  /** `swap` is atomic: at one moment `k` it exchanges its pointer for the one that the cell holds, and
      it returns a reference to exactly that one. */
  lemma SwapIsAtomic(run: seq<State>, i: nat, j: nat, t: nat, c: nat, nv: Ptr) returns (k: nat)
    requires IsRun(run) && SwapRuns(run, i, j, t, c, nv)
    ensures i < k < j && c < |run[k].cells| && Exchanges(run[k], run[k + 1], t, c, nv, run[k].cells[c].val)
    ensures HandsOut(run[j - 1], run[j], t, run[k].cells[c].val)
  {
    k := SwapSoFar(run, i + 1, j - 1, t, c, nv);
    SwapSteps(run, j - 1, t, c, nv, if k < j - 1 then run[k].cells[c].val else 0);
  }

  /** An attempt of `compare_and_swap` succeeds whenever the cell holds `current` and the exchange does not fail
      for no reason. */
  lemma AttemptSucceeds(s: State, t: nat)
    requires Inv(s) && t < |s.threads| && s.threads[t].op.CTry? && Holds(s, s.threads[t].op.c, s.threads[t].op.cur)
    ensures Enabled(s, Run(t, false))
    ensures StoresOver(s, Apply(s, Run(t, false)), t, s.threads[t].op.c, s.threads[t].op.cur, s.threads[t].op.nv)
  {
    Unfold(s, t);
    InvShape(s);
    assert CellOK(s, s.threads[t].op.c);
  }

  // ---------------------------------------------------------------------------------------------
  // Nobody else writes

  lemma OpWrites(s: State, t: nat, fail: bool, c: nat)
    requires Ready(s, t) && OpOK(s, t) && Busying(s, t) && !InCall(s.threads[t].call) && c < |s.cells| && CellOK(s, c)
    requires c < |OpStep(s, t, fail).cells| && s.cells[c].hist != OpStep(s, t, fail).cells[c].hist
    ensures var op := s.threads[t].op;
      || (op.Swapping? && Exchanges(s, OpStep(s, t, fail), t, c, op.nv, s.cells[c].val))
      || (op.CTry? && StoresOver(s, OpStep(s, t, fail), t, c, op.cur, op.nv))
  {
    if s.threads[t].op.Sweeping? { SweepCells(s, t); }
  }

  /** A cell gains a version only when a thread exchanges it or stores over what it expected there. */
  lemma WritesAreAtomic(run: seq<State>, k: nat, c: nat) returns (t: nat)
    requires IsRun(run) && k + 1 < |run| && c < |run[k].cells| && c < |run[k + 1].cells|
    requires run[k].cells[c].hist != run[k + 1].cells[c].hist
    ensures t < |run[k].threads|
    ensures var op := run[k].threads[t].op;
      || (op.Swapping? && Exchanges(run[k], run[k + 1], t, c, op.nv, run[k].cells[c].val))
      || (op.CTry? && StoresOver(run[k], run[k + 1], t, c, op.cur, op.nv))
  {
    var a := StepOf(run, k);
    var s := run[k];
    assert a.Run?;
    t := a.t;
    assert ThreadOK(s, t) && CellOK(s, c);
    Unfold(s, t);
    if InCall(s.threads[t].call) {
      CallCells(s, t);
    } else {
      OpWrites(s, t, a.fail, c);
    }
  }
}
