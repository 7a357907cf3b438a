/** Public operations from the user's action to the user's answer. */
module Calls {
  import opened Protocol
  import opened Steps
  import opened Invariant
  import opened Moves
  import opened CallProofs
  import opened UserProofs
  import opened Preservation
  import opened Theorems
  import opened Runs
  import opened Progress
  import opened Sweeps
  import opened Writes
  import opened Objects
  import opened ObjectRuns

  // ---------------------------------------------------------------------------------------------
  // load and load_full

  /** In the step to `b` thread `t` gives the user `p`: a counted reference, or a guard. */
  ghost predicate UserGets(a: State, b: State, t: nat, full: bool, p: Ptr) {
    && t < |a.threads| && t < |b.threads| && b.threads[t].op.Idle? && b.threads[t].call.NoCall?
    && a.threads[t].op.Loading? && a.threads[t].call.Done?
    && var g := a.threads[t].call.g;
    && g < |a.guards| && g < |b.guards| && a.guards[g].status == Held(t) && a.guards[g].ptr == p
    && (if full then b.handles == Inc(a.handles, p) && b.guards[g].status.Gone?
        else b.handles == a.handles && b.guards[g] == a.guards[g].(status := Loose))
  }

  /** The call of a `Loading` operation has its answer. */
  ghost predicate HasAnswer(s: State, t: nat, full: bool, g: nat, p: Ptr) {
    && t < |s.threads| && s.threads[t].op.Loading? && s.threads[t].call.Done?
    && s.threads[t].call.g == g && s.threads[t].call.ask.full == full
    && g < |s.guards| && s.guards[g].status == Held(t) && s.guards[g].ptr == p
  }

  lemma AnswerStep(run: seq<State>, m: nat, t: nat, full: bool, g: nat, p: Ptr)
    requires IsRun(run) && m + 1 < |run| && HasAnswer(run[m], t, full, g, p)
    ensures HasAnswer(run[m + 1], t, full, g, p) || UserGets(run[m], run[m + 1], t, full, p)
    ensures run[m + 1].refs[p] > 0
  {
    var a := StepOf(run, m);
    if Actor(a) != t {
      Others(run[m], a, t);
      GuardKeepsPtr(run[m], a, t, g);
      StillHeld(run[m + 1], t);
      HeldAlive(run[m + 1], g);
    } else {
      Unfold(run[m], t);
      if full { HandleAlive(run[m + 1], p); } else { HeldAlive(run[m + 1], g); }
    }
  }

  lemma StillHeld(s: State, t: nat)
    requires Inv(s) && t < |s.threads| && s.threads[t].call.Done?
    ensures HeldGuard(s, t, s.threads[t].call.g)
  {
    assert ThreadOK(s, t);
  }

  /** From its answer on, the object lives until the user has it. */
  lemma {:induction false} AnswerArrives(run: seq<State>, d: nat, j: nat, t: nat, full: bool, g: nat, p: Ptr)
    requires IsRun(run) && d < j < |run| && HasAnswer(run[d], t, full, g, p)
    requires forall m :: d <= m < j ==> t < |run[m].threads| && !run[m].threads[t].op.Idle?
    requires t < |run[j].threads| && run[j].threads[t].op.Idle?
    ensures UserGets(run[j - 1], run[j], t, full, p) && Lasts(run, d, j, p)
    decreases j - d
  {
    RunOK(run, d);
    HeldAlive(run[d], g);
    AnswerStep(run, d, t, full, g, p);
    if HasAnswer(run[d + 1], t, full, g, p) {
      AnswerArrives(run, d + 1, j, t, full, g, p);
    }
  }

  lemma CallAnswers(run: seq<State>, m: nat, t: nat)
    requires IsRun(run) && m + 1 < |run| && t < |run[m].threads| && run[m].threads[t].op.Loading? && InCall(run[m].threads[t].call)
    ensures t < |run[m + 1].threads| && run[m + 1].threads[t].op.Loading?
    ensures InCall(run[m + 1].threads[t].call) || run[m + 1].threads[t].call.Done?
  {
    var a := StepOf(run, m);
    Unfold(run[m], t);
    if Actor(a) != t { Others(run[m], a, t); } else { CallKeepsOp(run[m], t); }
    LoadingFits(run[m + 1], t);
  }

  lemma LoadingFits(s: State, t: nat)
    requires Inv(s) && t < |s.threads| && s.threads[t].op.Loading?
    ensures InCall(s.threads[t].call) || s.threads[t].call.Done?
  {
    assert ThreadOK(s, t);
  }

  /** A call of a `Loading` operation comes to its answer before the operation ends. */
  lemma {:induction false} CallEnds(run: seq<State>, i: nat, m: nat, j: nat, t: nat) returns (d: nat)
    requires IsRun(run) && i < m < j && Working(run, i, j, t)
    requires run[m].threads[t].op.Loading? && forall x :: i < x <= m ==> InCall(run[x].threads[t].call)
    ensures m < d < j && run[d].threads[t].op.Loading? && run[d].threads[t].call.Done?
    ensures forall x :: i < x < d ==> InCall(run[x].threads[t].call)
    decreases j - m
  {
    CallAnswers(run, m, t);
    if run[m + 1].threads[t].call.Done? {
      d := m + 1;
    } else {
      d := CallEnds(run, i, m + 1, j, t);
    }
  }

  /** The user calls `load` or `load_full` on cell `c` after `i`, and it has returned at `j`. */
  ghost predicate LoadCalled(run: seq<State>, i: nat, j: nat, t: nat, c: nat, full: bool) {
    Begins(run, i, BeginLoad(t, c, full)) && Working(run, i, j, t)
  }

  /** The load that the user began runs on the cell that the user named, and its answer comes to the user. */
  lemma LoadInside(run: seq<State>, i: nat, j: nat, t: nat, c: nat, full: bool) returns (d: nat, ask: Ask, p: Ptr)
    requires IsRun(run) && LoadCalled(run, i, j, t, c, full)
    ensures i < d < j && ask.cell == c && LoadRuns(run, i, d, t, ask)
    ensures run[d].threads[t].call.g < |run[d].guards| && run[d].guards[run[d].threads[t].call.g].ptr == p
    ensures UserGets(run[j - 1], run[j], t, full, p) && Lasts(run, d, j, p)
  {
    ask := Ask(c, Now(run[i], c), full);
    d := CallEnds(run, i, i + 1, j, t);
    assert LoadRuns(run, i, d, t, ask);
    LoadKeepsAsk(run, i, d, t, ask, d);
    RunOK(run, d);
    assert ThreadOK(run[d], t);
    var g := run[d].threads[t].call.g;
    p := run[d].guards[g].ptr;
    AnswerArrives(run, d, j, t, full, g, p);
  }

  /** `load` and `load_full`: what the user gets was in the cell that the user named, at some moment of the
      call. */
  lemma LoadCall(run: seq<State>, i: nat, j: nat, t: nat, c: nat, full: bool) returns (k: nat, p: Ptr)
    requires IsRun(run) && LoadCalled(run, i, j, t, c, full)
    ensures i < k < j && Holds(run[k], c, p) && UserGets(run[j - 1], run[j], t, full, p)
  {
    var d, ask;
    d, ask, p := LoadInside(run, i, j, t, c, full);
    LoadReturnsHeldValue(run, i, d, t, ask);
    k :| i < k <= d && Holds(run[k], c, run[d].guards[run[d].threads[t].call.g].ptr);
  }

  /** Without fast slots the very object was there. */
  lemma SlowLoadCallIsExact(run: seq<State>, i: nat, j: nat, t: nat, c: nat, full: bool) returns (p: Ptr)
    requires IsRun(run) && LoadCalled(run, i, j, t, c, full) && !run[0].useFast
    ensures UserGets(run[j - 1], run[j], t, full, p) && Exact(run, i, j, c, p)
  {
    var d, ask;
    d, ask, p := LoadInside(run, i, j, t, c, full);
    SlowLoadsAreExact(run, i, d, t, ask);
    var k :| i < k <= d && Holds(run[k], c, p) && Born(run, k, p) == Born(run, d, p);
    BornGrows(run, d, j, p);
  }

  /** With any configuration the object was there if no object has been created at its address since a moment
      of the call when the cell held that address; and only then. */
  lemma LoadCallIsExactIff(run: seq<State>, i: nat, j: nat, t: nat, c: nat, full: bool) returns (p: Ptr)
    requires IsRun(run) && LoadCalled(run, i, j, t, c, full)
    ensures UserGets(run[j - 1], run[j], t, full, p)
    ensures Exact(run, i, j, c, p) <==> exists k :: i < k <= j && Holds(run[k], c, p) && NoneCreated(run, k, j, p)
  {
    var d, ask;
    d, ask, p := LoadInside(run, i, j, t, c, full);
    forall k | i < k <= j ensures Born(run, k, p) == Born(run, j, p) <==> NoneCreated(run, k, j, p) { BornChanges(run, k, j, p); }
  }

  // ---------------------------------------------------------------------------------------------
  // Guard::into_inner

  /** The call makes guard `g` on `p` own a reference. */
  predicate Converting(c: Call, ask: Ask, p: Ptr, g: nat) {
    c == InInc(ask, p, g) || c == InPay(ask, p, g) || c == InDec(ask, p, g) || c == Done(ask, g)
  }

  lemma ConvertStep(s: State, t: nat, ask: Ask, p: Ptr, g: nat)
    requires Ready(s, t) && InCall(s.threads[t].call) && Converting(s.threads[t].call, ask, p, g)
    ensures t < |CallStep(s, t).threads| && Converting(CallStep(s, t).threads[t].call, ask, p, g)
    ensures g < |CallStep(s, t).guards| && CallStep(s, t).guards[g].ptr == s.guards[g].ptr
  {
    if s.threads[t].call.InPay? { assert NodeShape(s, s.guards[g].debt.node); }
  }

  ghost predicate Converts(s: State, t: nat, ask: Ask, p: Ptr, g: nat) {
    && t < |s.threads| && s.threads[t].op.Loading? && Converting(s.threads[t].call, ask, p, g)
    && g < |s.guards| && s.guards[g].ptr == p
  }

  lemma ConvertsOn(run: seq<State>, m: nat, t: nat, ask: Ask, p: Ptr, g: nat)
    requires IsRun(run) && m + 1 < |run| && Converts(run[m], t, ask, p, g) && InCall(run[m].threads[t].call)
    ensures Converts(run[m + 1], t, ask, p, g)
  {
    var a := StepOf(run, m);
    Unfold(run[m], t);
    if Actor(a) != t {
      Others(run[m], a, t);
      GuardKeepsPtr(run[m], a, t, g);
    } else {
      CallKeepsOp(run[m], t);
      ConvertStep(run[m], t, ask, p, g);
    }
  }

  lemma {:induction false} IntoEnds(run: seq<State>, m: nat, j: nat, t: nat, ask: Ask, p: Ptr, g: nat)
    requires IsRun(run) && m < j < |run| && Converts(run[m], t, ask, p, g) && ask.full
    requires forall x :: m <= x < j ==> t < |run[x].threads| && !run[x].threads[t].op.Idle?
    requires t < |run[j].threads| && run[j].threads[t].op.Idle?
    ensures UserGets(run[j - 1], run[j], t, true, p) && run[j - 1].threads[t].call.g == g
    decreases j - m
  {
    RunOK(run, m);
    assert ThreadOK(run[m], t);
    if InCall(run[m].threads[t].call) {
      ConvertsOn(run, m, t, ask, p, g);
      IntoEnds(run, m + 1, j, t, ask, p, g);
    } else {
      AnswerStep(run, m, t, true, g, p);
      if HasAnswer(run[m + 1], t, true, g, p) {
        ConvertsKeep(run, m, t, ask, p, g);
        IntoEnds(run, m + 1, j, t, ask, p, g);
      }
    }
  }

  /** While the answer waits, it stays the same call. */
  lemma ConvertsKeep(run: seq<State>, m: nat, t: nat, ask: Ask, p: Ptr, g: nat)
    requires IsRun(run) && m + 1 < |run| && Converts(run[m], t, ask, p, g) && run[m].threads[t].call.Done?
    requires HasAnswer(run[m + 1], t, ask.full, g, p)
    ensures Converts(run[m + 1], t, ask, p, g)
  {
    var a := StepOf(run, m);
    Unfold(run[m], t);
    if Actor(a) != t { Others(run[m], a, t); }
  }

  /** `Guard::into_inner`: the user gets a counted reference to what the guard was on, and the guard is gone. */
  lemma IntoInnerCall(run: seq<State>, i: nat, j: nat, t: nat, g: nat)
    requires IsRun(run) && Begins(run, i, BeginInto(t, g)) && Working(run, i, j, t)
    ensures g < |run[i].guards| && g < |run[j].guards| && run[j].guards[g].status.Gone?
    ensures run[j].handles == Inc(run[j - 1].handles, run[i].guards[g].ptr)
  {
    var gd := run[i].guards[g];
    if gd.debt.At? { IntoEnds(run, i + 1, j, t, Ask(gd.src, 0, true), gd.ptr, g); }
  }

  // ---------------------------------------------------------------------------------------------
  // Drop of a guard

  /** From `a` to `b` guard `g` ends: its debt is taken back unpaid, or the reference it owns is released. */
  ghost predicate GuardEnds(a: State, b: State, g: nat) {
    && g < |a.guards| && g < |b.guards| && !a.guards[g].status.Gone? && b.guards[g].status.Gone?
    && var gd := a.guards[g];
    && b.handles == a.handles
    && ((gd.paid && b.refs == Dec(a.refs, gd.ptr)) ||
        (gd.debt.At? && b.refs == a.refs && SlotFreed(a, b, gd.debt.node, gd.debt.slot, gd.ptr)))
  }

  predicate SlotFreed(a: State, b: State, n: nat, x: nat, p: Ptr) {
    && n < |a.nodes| && x < |a.nodes[n].slots| && n < |b.nodes| && x < |b.nodes[n].slots|
    && a.nodes[n].slots[x].Owes? && a.nodes[n].slots[x].ptr == p && b.nodes[n].slots[x].Free?
  }

  predicate Droppable(c: Call, g: nat) { c == DrPay(g) || c == DrDec(g) }

  lemma DropStep(s: State, t: nat, g: nat)
    requires Ready(s, t) && ThreadOK(s, t) && Droppable(s.threads[t].call, g) && GuardOK(s, g)
    ensures var s' := CallStep(s, t);
      && t < |s'.threads|
      && (|| (s'.threads[t].call.Dropped? && GuardEnds(s, s', g))
          || (s'.threads[t].call == DrDec(g) && g < |s'.guards| && s'.guards[g].ptr == s.guards[g].ptr))
  {
    if s.threads[t].call.DrPay? { assert NodeShape(s, s.guards[g].debt.node); }
  }

  /** Thread `t` is dropping guard `g` on `p`, or did so between two moments since `i`. */
  ghost predicate DropsGuard(run: seq<State>, i: nat, m: nat, t: nat, g: nat, p: Ptr) {
    && i < m < |run| && t < |run[m].threads| && run[m].threads[t].op.Dropping? && g < |run[m].guards|
    && (|| (Droppable(run[m].threads[t].call, g) && run[m].guards[g].ptr == p)
        || (run[m].threads[t].call.Dropped? && exists k :: EndedAt(run, i, k, m, t, g, p)))
  }

  ghost predicate EndedAt(run: seq<State>, i: nat, k: nat, m: nat, t: nat, g: nat, p: Ptr) {
    && i < k < m < |run| && GuardEnds(run[k], run[k + 1], g) && run[k].guards[g].ptr == p && Moved(run[k], run[k + 1], t)
  }

  lemma DropGoesOn(run: seq<State>, i: nat, m: nat, t: nat, g: nat, p: Ptr)
    requires IsRun(run) && m + 1 < |run| && DropsGuard(run, i, m, t, g, p) && t < |run[m + 1].threads|
    ensures DropsGuard(run, i, m + 1, t, g, p) || (run[m + 1].threads[t].op.Idle? && run[m].threads[t].call.Dropped?)
  {
    if Droppable(run[m].threads[t].call, g) {
      DropMoves(run, i, m, t, g, p);
    } else {
      var a := StepOf(run, m);
      NoGuardVanishes(run[m], a, g);
      Unfold(run[m], t);
      var k :| EndedAt(run, i, k, m, t, g, p);
      assert EndedAt(run, i, k, m + 1, t, g, p);
      if Actor(a) != t { Others(run[m], a, t); }
    }
  }

  lemma DroppableIsHeld(s: State, t: nat, g: nat)
    requires Inv(s) && t < |s.threads| && Droppable(s.threads[t].call, g)
    ensures HeldGuard(s, t, g)
  {
    assert ThreadOK(s, t);
  }

  lemma DropMoves(run: seq<State>, i: nat, m: nat, t: nat, g: nat, p: Ptr)
    requires IsRun(run) && m + 1 < |run| && DropsGuard(run, i, m, t, g, p) && t < |run[m + 1].threads|
    requires Droppable(run[m].threads[t].call, g)
    ensures DropsGuard(run, i, m + 1, t, g, p)
  {
    var a := StepOf(run, m);
    NoGuardVanishes(run[m], a, g);
    if Actor(a) != t {
      DroppableIsHeld(run[m], t, g);
      Others(run[m], a, t);
      GuardKeepsPtr(run[m], a, t, g);
    } else {
      Unfold(run[m], t);
      CallKeepsOp(run[m], t);
      DropStep(run[m], t, g);
      if run[m + 1].threads[t].call.Dropped? { assert EndedAt(run, i, m, m + 1, t, g, p); }
    }
  }

  lemma NoGuardVanishes(s: State, a: Action, g: nat)
    requires Inv(s) && Enabled(s, a) && g < |s.guards|
    ensures g < |Apply(s, a).guards|
  {
    if a.Run? { RunKeepsGuards(s, a.t, a.fail, g); }
  }

  lemma RunKeepsGuards(s: State, t: nat, fail: bool, g: nat)
    requires Inv(s) && Enabled(s, Run(t, fail)) && g < |s.guards|
    ensures g < |Apply(s, Run(t, fail)).guards|
  {
    Unfold(s, t);
    if InCall(s.threads[t].call) { CallGuardCount(s, t, g); } else { OpGuards(s, t, fail, g); }
  }

  lemma CallGuardCount(s: State, t: nat, g: nat)
    requires Ready(s, t) && InCall(s.threads[t].call) && g < |s.guards|
    ensures g < |CallStep(s, t).guards|
  {
    if HasDebt(s.threads[t].call) { assert NodeShape(s, s.guards[s.threads[t].call.g].debt.node); }
  }

  lemma {:induction false} DropEnds(run: seq<State>, i: nat, m: nat, j: nat, t: nat, g: nat, p: Ptr) returns (k: nat)
    requires IsRun(run) && Working(run, i, j, t) && i < m < j && DropsGuard(run, i, m, t, g, p)
    ensures EndedAt(run, i, k, j, t, g, p)
    decreases j - m
  {
    DropGoesOn(run, i, m, t, g, p);
    if run[m + 1].threads[t].op.Idle? && run[m].threads[t].call.Dropped? {
      k :| EndedAt(run, i, k, m, t, g, p);
    } else {
      k := DropEnds(run, i, m + 1, j, t, g, p);
    }
  }

  /** Dropping a guard takes its debt back, or releases the reference that somebody paid for it, once. */
  lemma DropCall(run: seq<State>, i: nat, j: nat, t: nat, g: nat) returns (k: nat)
    requires IsRun(run) && Begins(run, i, BeginDrop(t, g)) && Working(run, i, j, t)
    ensures i < k < j && g < |run[i].guards| && GuardEnds(run[k], run[k + 1], g) && run[k].guards[g].ptr == run[i].guards[g].ptr
    ensures Moved(run[k], run[k + 1], t)
  {
    RunOK(run, i);
    k := DropEnds(run, i, i + 1, j, t, g, run[i].guards[g].ptr);
  }
}
