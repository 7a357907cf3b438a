/** Which object a load returns, over whole runs. */
module ObjectRuns {
  import opened Protocol
  import opened Steps
  import opened Invariant
  import opened Moves
  import opened CallProofs
  import opened Preservation
  import opened Theorems
  import opened Runs
  import opened Progress
  import opened Objects
  import opened Claims

  // ---------------------------------------------------------------------------------------------
  // Every answer has an origin

  ghost predicate From(run: seq<State>, m: nat, c: nat, since: nat, p: Ptr) {
    exists k :: 0 <= k <= m < |run| && (Root(run[k], c, since, p) || PaidRoot(run[k], c, since, p)) && Lasts(run, k, m, p)
  }

  lemma {:induction false} ClaimsComeFrom(run: seq<State>, m: nat, c: nat, since: nat, p: Ptr)
    requires IsRun(run) && m < |run| && Claimed(run[m], c, since, p)
    ensures From(run, m, c, since, p)
    decreases m
  {
    if m > 0 {
      ClaimBefore(run, m - 1, c, since, p);
      if Claimed(run[m - 1], c, since, p) {
        ClaimsComeFrom(run, m - 1, c, since, p);
        var k :| 0 <= k <= m - 1 && (Root(run[k], c, since, p) || PaidRoot(run[k], c, since, p)) && Lasts(run, k, m - 1, p);
        assert Lasts(run, k, m, p);
      } else {
        assert Lasts(run, m - 1, m, p);
      }
    }
  }

  lemma ClaimBefore(run: seq<State>, m: nat, c: nat, since: nat, p: Ptr)
    requires IsRun(run) && m + 1 < |run| && Claimed(run[m + 1], c, since, p)
    ensures Source(run[m], c, since, p) && run[m].refs[p] > 0 && run[m + 1].refs[p] > 0
  {
    var a := StepOf(run, m);
    ClaimAlive(run[m + 1], c, since, p);
    ClaimStep(run[m], a, c, since, p);
    SourceAlive(run[m], c, since, p);
  }

  /** A version that was current when a load began is still there at its first access. */
  lemma RootWithin(run: seq<State>, k: nat, i: nat, c: nat, since: nat, p: Ptr)
    requires IsRun(run) && k <= i && i + 1 < |run| && Root(run[k], c, since, p)
    requires IsLive(run[i], c) && since == Now(run[i], c) && run[i + 1].cells == run[i].cells
    ensures Holds(run[i + 1], c, p)
  {
    HistGrows(run, k, i, c);
    CurrentVersion(run, k, c);
    CurrentVersion(run, i, c);
  }

  /** No load that began earlier can leave through the paid exit with a version from before. */
  lemma PaidWithin(run: seq<State>, k: nat, i: nat, c: nat, since: nat, p: Ptr)
    requires IsRun(run) && k < |run| && i < |run| && PaidRoot(run[k], c, since, p)
    requires IsLive(run[i], c) && since == Now(run[i], c)
    ensures i < k
  {
    var u :| 0 <= u < |run[k].threads| && PaidExit(run[k], u, c, since, p);
    if k <= i {
      HistGrows(run, k, i, c);
      CurrentVersion(run, k, c);
    }
  }

  /** How a load begins and ends. */
  lemma LoadFrames(run: seq<State>, i: nat, j: nat, t: nat, ask: Ask)
    requires IsRun(run) && LoadRuns(run, i, j, t, ask)
    ensures IsLive(run[i], ask.cell) && ask.since == Now(run[i], ask.cell) && run[i + 1].cells == run[i].cells
    ensures run[j].threads[t].call.g < |run[j].guards|
    ensures Claimed(run[j], ask.cell, ask.since, run[j].guards[run[j].threads[t].call.g].ptr)
  {
    var a := StepOf(run, i);
    LoadStarts(run[i], a, t, ask);
    LoadKeepsAsk(run, i, j, t, ask, j);
    LoadEnds(run, j, t, ask);
  }

  lemma LoadEnds(run: seq<State>, j: nat, t: nat, ask: Ask)
    requires IsRun(run) && j < |run| && Asks(run[j], t, ask) && run[j].threads[t].call.Done?
    ensures run[j].threads[t].call.g < |run[j].guards|
    ensures Claimed(run[j], ask.cell, ask.since, run[j].guards[run[j].threads[t].call.g].ptr)
  {
    RunOK(run, j);
    assert ThreadOK(run[j], t);
    assert ThreadClaims(run[j], t, ask.cell, ask.since, run[j].guards[run[j].threads[t].call.g].ptr);
  }

  /** The object that a load returns was in its cell at a moment `k` of the load and has lived since; or
      some load of the same cell, its own or one that handed it the pointer, had its debt on that pointer
      paid by somebody else at `k`, and the object has lived since then. */
  lemma LoadOrigin(run: seq<State>, i: nat, j: nat, t: nat, ask: Ask) returns (k: nat)
    requires IsRun(run) && LoadRuns(run, i, j, t, ask)
    ensures i < k <= j && run[j].threads[t].call.g < |run[j].guards|
    ensures var p := run[j].guards[run[j].threads[t].call.g].ptr;
      Lasts(run, k, j, p) && (Holds(run[k], ask.cell, p) || PaidRoot(run[k], ask.cell, ask.since, p))
  {
    LoadFrames(run, i, j, t, ask);
    var p := run[j].guards[run[j].threads[t].call.g].ptr;
    ClaimsComeFrom(run, j, ask.cell, ask.since, p);
    k :| 0 <= k <= j && (Root(run[k], ask.cell, ask.since, p) || PaidRoot(run[k], ask.cell, ask.since, p)) && Lasts(run, k, j, p);
    if PaidRoot(run[k], ask.cell, ask.since, p) {
      PaidWithin(run, k, i, ask.cell, ask.since, p);
    } else if k <= i {
      RootWithin(run, k, i, ask.cell, ask.since, p);
      k := i + 1;
    }
  }

  // ---------------------------------------------------------------------------------------------
  // Without fast slots

  predicate FastCall(c: Call) { c.LScan? || c.LPut? || c.LConfirm? || c.LPay? }

  ghost predicate Slow(s: State) {
    !s.useFast && forall t :: 0 <= t < |s.threads| ==> !FastCall(s.threads[t].call)
  }

  lemma SlowCall(s: State, t: nat)
    requires Ready(s, t) && InCall(s.threads[t].call) && !s.useFast && !FastCall(s.threads[t].call)
    ensures !CallStep(s, t).useFast && t < |CallStep(s, t).threads| && !FastCall(CallStep(s, t).threads[t].call)
  {
    if Paying(s.threads[t].call) { SlowPaying(s, t); }
  }

  lemma SlowPaying(s: State, t: nat)
    requires Ready(s, t) && Paying(s.threads[t].call) && !s.useFast && !FastCall(s.threads[t].call)
    ensures !CallStep(s, t).useFast && t < |CallStep(s, t).threads| && !FastCall(CallStep(s, t).threads[t].call)
  {
    assert NodeShape(s, s.guards[s.threads[t].call.g].debt.node);
  }

  lemma SlowSweep(s: State, t: nat)
    requires Ready(s, t) && s.threads[t].op.Sweeping? && !InCall(s.threads[t].call) && !s.useFast
    requires s.threads[t].op.pc.HLoad? ==> s.threads[t].call.Done?
    ensures !SweepStep(s, t).useFast && t < |SweepStep(s, t).threads| && !FastCall(SweepStep(s, t).threads[t].call)
  {
    if HasObs(s.threads[t].op.pc) { SlowHelp(s, t); }
  }

  lemma SlowHelp(s: State, t: nat)
    requires Ready(s, t) && s.threads[t].op.Sweeping? && !InCall(s.threads[t].call) && !s.useFast && HasObs(s.threads[t].op.pc)
    requires s.threads[t].op.pc.HLoad? ==> s.threads[t].call.Done?
    ensures !SweepStep(s, t).useFast && t < |SweepStep(s, t).threads| && !FastCall(SweepStep(s, t).threads[t].call)
  {
  }

  lemma SlowOp(s: State, t: nat, fail: bool)
    requires Ready(s, t) && Busying(s, t) && !InCall(s.threads[t].call) && !s.useFast
    ensures !OpStep(s, t, fail).useFast && t < |OpStep(s, t, fail).threads| && !FastCall(OpStep(s, t, fail).threads[t].call)
  {
    if s.threads[t].op.Sweeping? { SlowSweep(s, t); }
  }

  lemma SlowStep(s: State, a: Action)
    requires Inv(s) && Enabled(s, a) && Slow(s)
    ensures Slow(Apply(s, a))
  {
    var s' := Apply(s, a);
    if a.Run? {
      Unfold(s, a.t);
      if InCall(s.threads[a.t].call) { SlowCall(s, a.t); } else { SlowOp(s, a.t, a.fail); }
    }
    NoNewThreads(s, a);
    forall t | 0 <= t < |s'.threads| ensures !FastCall(s'.threads[t].call) {
      if t < |s.threads| && Actor(a) != t { Others(s, a, t); }
    }
  }

  lemma {:induction false} SlowRun(run: seq<State>, m: nat)
    requires IsRun(run) && m < |run| && !run[0].useFast
    ensures Slow(run[m])
    decreases m
  {
    if m > 0 {
      SlowRun(run, m - 1);
      var a := StepOf(run, m - 1);
      SlowStep(run[m - 1], a);
    }
  }

  /** The object that a load returns was in its own cell during the load. */
  ghost predicate Exact(run: seq<State>, i: nat, j: nat, c: nat, p: Ptr) {
    exists k :: i < k <= j < |run| && Holds(run[k], c, p) && Born(run, k, p) == Born(run, j, p)
  }

  /** Without fast slots every load is exact, at any depth of helping, however addresses are reused. */
  lemma SlowLoadsAreExact(run: seq<State>, i: nat, j: nat, t: nat, ask: Ask)
    requires IsRun(run) && LoadRuns(run, i, j, t, ask) && !run[0].useFast
    ensures run[j].threads[t].call.g < |run[j].guards|
    ensures Exact(run, i, j, ask.cell, run[j].guards[run[j].threads[t].call.g].ptr)
  {
    var k := LoadOrigin(run, i, j, t, ask);
    var p := run[j].guards[run[j].threads[t].call.g].ptr;
    SlowRun(run, k);
    BornGrows(run, k, j, p);
  }

  // ---------------------------------------------------------------------------------------------
  // With fast slots

  /** In the step after `x` an object is created at `p`. */
  ghost predicate CreatedAt(run: seq<State>, x: nat, p: Ptr) {
    x + 1 < |run| && Enabled(run[x], NewObject(p)) && run[x + 1] == Apply(run[x], NewObject(p))
  }

  ghost predicate NoneCreated(run: seq<State>, k: nat, m: nat, p: Ptr) {
    forall x :: k <= x < m ==> !CreatedAt(run, x, p)
  }

  lemma BirthMoment(run: seq<State>, x: nat, p: Ptr)
    requires IsRun(run) && x + 1 < |run|
    ensures Births(run[x], run[x + 1], p) <==> CreatedAt(run, x, p)
  {
    var a := StepOf(run, x);
    BirthsAreCreations(run[x], a, p);
    if CreatedAt(run, x, p) { BirthsAreCreations(run[x], NewObject(p), p); }
  }

  /** Identity changes exactly when an object is created at the address. */
  lemma {:induction false} BornChanges(run: seq<State>, k: nat, m: nat, p: Ptr)
    requires IsRun(run) && k <= m < |run|
    ensures Born(run, k, p) == Born(run, m, p) <==> NoneCreated(run, k, m, p)
    ensures Born(run, k, p) <= Born(run, m, p)
    decreases m
  {
    if k < m {
      BornChanges(run, k, m - 1, p);
      BirthMoment(run, m - 1, p);
      if NoneCreated(run, k, m, p) { assert NoneCreated(run, k, m - 1, p) && !CreatedAt(run, m - 1, p); }
    }
  }

  /** A load is exact if and only if, at some moment of it, its cell held the pointer it returns, and no
      object has been created at that address since.  In particular it is when none is created there
      during the load. */
  lemma ExactIffNotReborn(run: seq<State>, i: nat, j: nat, t: nat, ask: Ask)
    requires IsRun(run) && LoadRuns(run, i, j, t, ask)
    ensures run[j].threads[t].call.g < |run[j].guards|
    ensures var p := run[j].guards[run[j].threads[t].call.g].ptr;
      && (Exact(run, i, j, ask.cell, p) <==> exists k :: i < k <= j && Holds(run[k], ask.cell, p) && NoneCreated(run, k, j, p))
      && (NoneCreated(run, i + 1, j, p) ==> Exact(run, i, j, ask.cell, p))
  {
    LoadReturnsHeldValue(run, i, j, t, ask);
    var p := run[j].guards[run[j].threads[t].call.g].ptr;
    var h :| i < h <= j && Holds(run[h], ask.cell, p);
    forall k | i < k <= j ensures Born(run, k, p) == Born(run, j, p) <==> NoneCreated(run, k, j, p) { BornChanges(run, k, j, p); }
    if NoneCreated(run, i + 1, j, p) { assert NoneCreated(run, h, j, p); }
  }

  /** A load that is not exact got its pointer through a paid exit: some load of its cell, during this one,
      left there with the pointer that the cell had held, after an object had been created at that address. */
  lemma InexactOnlyByPaidExit(run: seq<State>, i: nat, j: nat, t: nat, ask: Ask) returns (r: nat, x: nat, k: nat)
    requires IsRun(run) && LoadRuns(run, i, j, t, ask) && run[j].threads[t].call.g < |run[j].guards|
    requires !Exact(run, i, j, ask.cell, run[j].guards[run[j].threads[t].call.g].ptr)
    ensures var p := run[j].guards[run[j].threads[t].call.g].ptr;
      && i < r <= x < k <= j && Holds(run[r], ask.cell, p) && CreatedAt(run, x, p)
      && PaidRoot(run[k], ask.cell, ask.since, p) && Lasts(run, k, j, p)
  {
    var p := run[j].guards[run[j].threads[t].call.g].ptr;
    LoadFrames(run, i, j, t, ask);
    k := LoadOrigin(run, i, j, t, ask);
    BornGrows(run, k, j, p);
    r := ReadBefore(run, i, k, ask.cell, ask.since, p);
    BornChanges(run, r, k, p);
    x :| r <= x < k && CreatedAt(run, x, p);
  }

  /** What leaves through a paid exit has been read from the cell. */
  lemma ReadBefore(run: seq<State>, i: nat, k: nat, c: nat, since: nat, p: Ptr) returns (r: nat)
    requires IsRun(run) && i < k < |run| && PaidRoot(run[k], c, since, p)
    requires IsLive(run[i], c) && since == Now(run[i], c) && run[i + 1].cells == run[i].cells
    ensures i < r <= k && Holds(run[r], c, p)
  {
    RunOK(run, k);
    var u :| 0 <= u < |run[k].threads| && PaidExit(run[k], u, c, since, p);
    assert ThreadOK(run[k], u);
    var v :| since <= v < |run[k].cells[c].hist| && run[k].cells[c].hist[v] == p;
    VersionWasHeld(run, i + 1, k, c, v);
    r :| i + 1 <= r <= k && Holds(run[r], c, run[k].cells[c].hist[v]);
  }

  /** Where the pointer of a fast attempt was read. */
  ghost predicate ReadAt(run: seq<State>, r: nat, t: nat, ask: Ask, p: Ptr) {
    && r + 1 < |run| && t < |run[r].threads| && t < |run[r + 1].threads|
    && run[r].threads[t].call == LStart(ask) && run[r + 1].threads[t].call == LScan(ask, p, 0) && Holds(run[r], ask.cell, p)
  }

  /** Thread `t` has been in the load that began after `i` until `m`. */
  ghost predicate LoadGoesOn(run: seq<State>, i: nat, m: nat, t: nat, ask: Ask) {
    && i < m < |run| && t < |run[i + 1].threads| && run[i + 1].threads[t].call == LStart(ask)
    && forall x :: i < x <= m ==> t < |run[x].threads| && InCall(run[x].threads[t].call)
  }

  predicate Carries(c: Call, ask: Ask, p: Ptr) { FastCall(c) && c.ask == ask && c.p == p }

  lemma FastStep(s: State, t: nat, ask: Ask, p: Ptr)
    requires Ready(s, t) && ThreadOK(s, t) && InCall(s.threads[t].call) && t < |CallStep(s, t).threads|
    requires Carries(CallStep(s, t).threads[t].call, ask, p)
    ensures Carries(s.threads[t].call, ask, p) ||
      (s.threads[t].call == LStart(ask) && CallStep(s, t).threads[t].call == LScan(ask, p, 0) && Holds(s, ask.cell, p))
  {
    if Paying(s.threads[t].call) { PayingIsSlow(s, t); } else if !FastCall(s.threads[t].call) { SlowStays(s, t); }
  }

  lemma SlowStays(s: State, t: nat)
    requires Ready(s, t) && InCall(s.threads[t].call) && !Paying(s.threads[t].call) && !FastCall(s.threads[t].call)
    ensures t < |CallStep(s, t).threads| && (s.threads[t].call.LStart? || !FastCall(CallStep(s, t).threads[t].call))
  {
  }

  lemma PayingIsSlow(s: State, t: nat)
    requires Ready(s, t) && Paying(s.threads[t].call)
    ensures t < |CallStep(s, t).threads| && !FastCall(CallStep(s, t).threads[t].call)
  {
    assert NodeShape(s, s.guards[s.threads[t].call.g].debt.node);
  }

  lemma FastBefore(run: seq<State>, m: nat, t: nat, ask: Ask, p: Ptr)
    requires IsRun(run) && m + 1 < |run| && t < |run[m].threads| && InCall(run[m].threads[t].call)
    requires t < |run[m + 1].threads| && Carries(run[m + 1].threads[t].call, ask, p)
    ensures Carries(run[m].threads[t].call, ask, p) || ReadAt(run, m, t, ask, p)
  {
    var a := StepOf(run, m);
    if Actor(a) != t {
      Others(run[m], a, t);
    } else {
      Unfold(run[m], t);
      FastStep(run[m], t, ask, p);
    }
  }

  lemma {:induction false} FirstRead(run: seq<State>, i: nat, m: nat, t: nat, ask: Ask, p: Ptr) returns (r: nat)
    requires IsRun(run) && LoadGoesOn(run, i, m, t, ask) && Carries(run[m].threads[t].call, ask, p)
    ensures i < r < m && ReadAt(run, r, t, ask, p)
    decreases m
  {
    assert m - 1 > i;
    FastBefore(run, m - 1, t, ask, p);
    if Carries(run[m - 1].threads[t].call, ask, p) {
      r := FirstRead(run, i, m - 1, t, ask, p);
    } else {
      r := m - 1;
    }
  }

  /** At the paid exit of a load the object is the one that was read first if and only if no object has
      been created at its address since that read. */
  lemma PaidExitIsExactIff(run: seq<State>, i: nat, m: nat, t: nat, ask: Ask) returns (r: nat)
    requires IsRun(run) && LoadGoesOn(run, i, m, t, ask) && run[m].threads[t].call.LPay? && run[m].threads[t].call.ask == ask
    requires PaidExit(run[m], t, ask.cell, ask.since, run[m].threads[t].call.p)
    ensures var p := run[m].threads[t].call.p;
      && i < r < m && ReadAt(run, r, t, ask, p)
      && (Lasts(run, r, m, p) <==> NoneCreated(run, r, m, p))
      && (Born(run, r, p) == Born(run, m, p) <==> NoneCreated(run, r, m, p))
  {
    var p := run[m].threads[t].call.p;
    r := FirstRead(run, i, m, t, ask, p);
    RunOK(run, r);
    RunOK(run, m);
    CellAlive(run[r], ask.cell);
    PaidAlive(run[m], run[m].threads[t].call.g);
    SameObject(run, r, m, p);
    BornChanges(run, r, m, p);
  }
}
