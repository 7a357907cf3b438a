/** What one action does to one thread and one cell, and how that adds up over a run. */
module Runs {
  import opened Protocol
  import opened Steps
  import opened Invariant
  import opened Moves
  import opened Preservation

  /** The thread that acts, or -1. */
  function Actor(a: Action): int {
    match a
    case Run(t, _) => t
    case BeginLoad(t, _, _) => t
    case BeginDrop(t, _) => t
    case BeginInto(t, _) => t
    case BeginSwap(t, _, _) => t
    case BeginCas(t, _, _, _) => t
    case BeginTake(t, _, _) => t
    case BeginGet(t) => t
    case BeginExit(t) => t
    case _ => -1
  }

  // ---------------------------------------------------------------------------------------------
  // Operations, from the user's action to the user's answer

  /** In the step after `i` the user takes action `a`. */
  ghost predicate Begins(run: seq<State>, i: nat, a: Action) {
    i + 1 < |run| && Enabled(run[i], a) && run[i + 1] == Apply(run[i], a)
  }

  /** Thread `t` is at work on what began after `i` until `j`, where it is at rest again. */
  ghost predicate Working(run: seq<State>, i: nat, j: nat, t: nat) {
    && i < j < |run|
    && (forall m :: i < m < j ==> t < |run[m].threads| && !run[m].threads[t].op.Idle?)
    && t < |run[j].threads| && run[j].threads[t].op.Idle?
  }

  // ---------------------------------------------------------------------------------------------
  // Other threads do not move

  lemma CallOthers(s: State, t: nat, i: nat)
    requires Ready(s, t) && InCall(s.threads[t].call) && i < |s.threads| && i != t
    ensures |CallStep(s, t).threads| == |s.threads| && CallStep(s, t).threads[i] == s.threads[i]
  {
    if Paying(s.threads[t].call) { PayingOthers(s, t, i); } else if HasDebt(s.threads[t].call) { DebtOthers(s, t, i); }
  }

  /** The call tries to pay a debt back. */
  predicate Paying(c: Call) {
    c.LPay? || c.FPay? || c.InPay? || c.DrPay?
  }

  lemma PayingOthers(s: State, t: nat, i: nat)
    requires Ready(s, t) && Paying(s.threads[t].call) && i < |s.threads| && i != t
    ensures |CallStep(s, t).threads| == |s.threads| && CallStep(s, t).threads[i] == s.threads[i]
  {
  }

  lemma DebtOthers(s: State, t: nat, i: nat)
    requires Ready(s, t) && HasDebt(s.threads[t].call) && !Paying(s.threads[t].call) && i < |s.threads| && i != t
    ensures |CallStep(s, t).threads| == |s.threads| && CallStep(s, t).threads[i] == s.threads[i]
  {
  }

  lemma HelpOthers(s: State, t: nat, i: nat)
    requires Ready(s, t) && s.threads[t].op.Sweeping? && (s.threads[t].op.pc.HLoad? ==> s.threads[t].call.Done?)
    requires HasObs(s.threads[t].op.pc) && i < |s.threads| && i != t
    ensures |SweepStep(s, t).threads| == |s.threads| && SweepStep(s, t).threads[i] == s.threads[i]
  {
  }

  lemma SweepOthers(s: State, t: nat, i: nat)
    requires Ready(s, t) && s.threads[t].op.Sweeping? && (s.threads[t].op.pc.HLoad? ==> s.threads[t].call.Done?)
    requires i < |s.threads| && i != t
    ensures |SweepStep(s, t).threads| == |s.threads| && SweepStep(s, t).threads[i] == s.threads[i]
  {
    if HasObs(s.threads[t].op.pc) {
      HelpOthers(s, t, i);
    } else if s.threads[t].op.pc.Pay? || s.threads[t].op.pc.PayInc? || s.threads[t].op.pc.Swept? {
      PayOthers(s, t, i);
    }
  }

  lemma PayOthers(s: State, t: nat, i: nat)
    requires Ready(s, t) && s.threads[t].op.Sweeping? && i < |s.threads| && i != t
    requires s.threads[t].op.pc.Pay? || s.threads[t].op.pc.PayInc? || s.threads[t].op.pc.Swept?
    ensures |SweepStep(s, t).threads| == |s.threads| && SweepStep(s, t).threads[i] == s.threads[i]
  {
  }

  lemma OpOthers(s: State, t: nat, fail: bool, i: nat)
    requires Ready(s, t) && Busying(s, t) && !InCall(s.threads[t].call) && i < |s.threads| && i != t
    ensures |OpStep(s, t, fail).threads| == |s.threads| && OpStep(s, t, fail).threads[i] == s.threads[i]
  {
    if s.threads[t].op.Sweeping? { SweepOthers(s, t, i); }
  }

  lemma Others(s: State, a: Action, i: nat)
    requires Inv(s) && Enabled(s, a) && i < |s.threads| && Actor(a) != i
    ensures i < |Apply(s, a).threads| && Apply(s, a).threads[i] == s.threads[i]
  {
    if a.Run? {
      Unfold(s, a.t);
      if InCall(s.threads[a.t].call) { CallOthers(s, a.t, i); } else { OpOthers(s, a.t, a.fail, i); }
    }
  }

  // ---------------------------------------------------------------------------------------------
  // Cells gain at most one version at a time

  ghost predicate Grows(a: Cell, b: Cell) {
    || (b.hist == a.hist && b.val == a.val && (b.live ==> a.live))
    || (b.hist == a.hist + [b.val] && a.live && b.live)
  }

  lemma CallCells(s: State, t: nat)
    requires Ready(s, t) && InCall(s.threads[t].call)
    ensures CallStep(s, t).cells == s.cells
  {
  }

  lemma SweepCells(s: State, t: nat)
    requires Ready(s, t) && s.threads[t].op.Sweeping? && (s.threads[t].op.pc.HLoad? ==> s.threads[t].call.Done?)
    ensures SweepStep(s, t).cells == s.cells
  {
  }

  lemma OpCells(s: State, t: nat, fail: bool, c: nat)
    requires Ready(s, t) && Busying(s, t) && !InCall(s.threads[t].call) && c < |s.cells| && ThreadOK(s, t)
    ensures |OpStep(s, t, fail).cells| == |s.cells| && Grows(s.cells[c], OpStep(s, t, fail).cells[c])
  {
    if s.threads[t].op.Sweeping? { SweepCells(s, t); }
  }

  lemma CellGrows(s: State, a: Action, c: nat)
    requires Inv(s) && Enabled(s, a) && c < |s.cells|
    ensures c < |Apply(s, a).cells| && Grows(s.cells[c], Apply(s, a).cells[c])
  {
    if a.Run? {
      Unfold(s, a.t);
      if InCall(s.threads[a.t].call) { CallCells(s, a.t); } else { OpCells(s, a.t, a.fail, c); }
    }
  }

  /** The action between two states of a run. */
  lemma StepOf(run: seq<State>, k: nat) returns (a: Action)
    requires IsRun(run) && k + 1 < |run|
    ensures Inv(run[k]) && Inv(run[k + 1]) && Enabled(run[k], a) && run[k + 1] == Apply(run[k], a)
  {
    RunOK(run, k);
    RunOK(run, k + 1);
    assert StepAt(run, k);
    a := ActionOf(run[k], run[k + 1]);
  }

  lemma ActionOf(s: State, s': State) returns (a: Action)
    requires Next(s, s')
    ensures Enabled(s, a) && s' == Apply(s, a)
  {
    a :| Enabled(s, a) && s' == Apply(s, a);
  }

  lemma StepGrows(run: seq<State>, k: nat, c: nat)
    requires IsRun(run) && k + 1 < |run| && c < |run[k].cells|
    ensures c < |run[k + 1].cells| && Grows(run[k].cells[c], run[k + 1].cells[c]) && CellOK(run[k], c)
  {
    var a := StepOf(run, k);
    CellGrows(run[k], a, c);
    assert CellOK(run[k], c);
  }

  /** Versions are never rewritten. */
  lemma {:induction false} HistGrows(run: seq<State>, i: nat, j: nat, c: nat)
    requires IsRun(run) && i <= j < |run| && c < |run[i].cells|
    ensures c < |run[j].cells| && run[i].cells[c].hist <= run[j].cells[c].hist
    decreases j - i
  {
    if i < j {
      HistGrows(run, i, j - 1, c);
      StepGrows(run, j - 1, c);
    }
  }

  lemma CurrentVersion(run: seq<State>, k: nat, c: nat)
    requires IsRun(run) && k < |run| && c < |run[k].cells|
    ensures CellOK(run[k], c)
  {
    RunOK(run, k);
  }

  /** A version that is current or newer at `i`, and exists at `j`, was installed in between: at some
      moment from `i` to `j` the cell held it. */
  lemma {:induction false} VersionWasHeld(run: seq<State>, i: nat, j: nat, c: nat, v: nat)
    requires IsRun(run) && i <= j < |run| && c < |run[i].cells| && c < |run[j].cells| && IsLive(run[i], c)
    requires Now(run[i], c) <= v < |run[j].cells[c].hist|
    ensures exists k :: i <= k <= j && Holds(run[k], c, run[j].cells[c].hist[v])
    decreases j - i
  {
    if i == j {
      CurrentVersion(run, i, c);
      assert Holds(run[i], c, run[j].cells[c].hist[v]);
    } else {
      HistGrows(run, i, j - 1, c);
      StepGrows(run, j - 1, c);
      if v < |run[j - 1].cells[c].hist| {
        VersionWasHeld(run, i, j - 1, c, v);
        var k :| i <= k <= j - 1 && Holds(run[k], c, run[j - 1].cells[c].hist[v]);
        assert Holds(run[k], c, run[j].cells[c].hist[v]);
      } else {
        assert Holds(run[j], c, run[j].cells[c].hist[v]);
      }
    }
  }

  // ---------------------------------------------------------------------------------------------
  // A load, from its first access to its return

  /** The call of thread `t` carries this question. */
  predicate Asks(s: State, t: nat, ask: Ask) {
    t < |s.threads| && (Reading(s.threads[t].call) || s.threads[t].call.InInc? || s.threads[t].call.InPay? ||
                        s.threads[t].call.InDec? || s.threads[t].call.Done?) && s.threads[t].call.ask == ask
  }

  lemma CallKeepsAsk(s: State, t: nat, ask: Ask)
    requires Ready(s, t) && InCall(s.threads[t].call) && Asks(s, t, ask)
    ensures Asks(CallStep(s, t), t, ask)
  {
    var c := s.threads[t].call;
    if Paying(c) { PayingKeepsAsk(s, t, ask); } else if HasDebt(c) { DebtKeepsAsk(s, t, ask); }
  }

  lemma PayingKeepsAsk(s: State, t: nat, ask: Ask)
    requires Ready(s, t) && Paying(s.threads[t].call) && Asks(s, t, ask)
    ensures Asks(CallStep(s, t), t, ask)
  {
  }

  lemma DebtKeepsAsk(s: State, t: nat, ask: Ask)
    requires Ready(s, t) && HasDebt(s.threads[t].call) && !Paying(s.threads[t].call) && Asks(s, t, ask)
    ensures Asks(CallStep(s, t), t, ask)
  {
  }

  lemma KeepsAsk(s: State, a: Action, t: nat, ask: Ask)
    requires Inv(s) && Enabled(s, a) && Asks(s, t, ask) && InCall(s.threads[t].call)
    ensures Asks(Apply(s, a), t, ask)
  {
    if Actor(a) != t {
      Others(s, a, t);
    } else {
      assert ThreadOK(s, t);
      Unfold(s, t);
      CallKeepsAsk(s, t, ask);
    }
  }

  lemma StepKeepsAsk(run: seq<State>, k: nat, t: nat, ask: Ask)
    requires IsRun(run) && k + 1 < |run| && Asks(run[k], t, ask) && InCall(run[k].threads[t].call)
    ensures Asks(run[k + 1], t, ask)
  {
    var a := StepOf(run, k);
    KeepsAsk(run[k], a, t, ask);
  }

  /** Thread `t` runs one load from the step after `i` to `j`, where it returns. */
  ghost predicate LoadRuns(run: seq<State>, i: nat, j: nat, t: nat, ask: Ask) {
    && i < j < |run| && t < |run[i].threads|
    && !InCall(run[i].threads[t].call)
    && (forall m :: i < m < j ==> t < |run[m].threads| && InCall(run[m].threads[t].call))
    && t < |run[i + 1].threads| && run[i + 1].threads[t].call == LStart(ask)
    && t < |run[j].threads| && run[j].threads[t].call.Done?
  }

  lemma SweepStarts(s: State, t: nat, ask: Ask)
    requires Ready(s, t) && s.threads[t].op.Sweeping? && !InCall(s.threads[t].call) && ThreadOK(s, t)
    requires s.threads[t].op.pc.HLoad? ==> s.threads[t].call.Done?
    requires t < |SweepStep(s, t).threads| && SweepStep(s, t).threads[t].call == LStart(ask)
    ensures s.threads[t].op.pc.HAddr?
  {
    if HasObs(s.threads[t].op.pc) { HelpStarts(s, t, ask); }
  }

  lemma HelpStarts(s: State, t: nat, ask: Ask)
    requires Ready(s, t) && s.threads[t].op.Sweeping? && !InCall(s.threads[t].call) && OwnOK(s, t) && HasObs(s.threads[t].op.pc)
    requires s.threads[t].op.pc.HLoad? ==> s.threads[t].call.Done?
    requires t < |SweepStep(s, t).threads| && SweepStep(s, t).threads[t].call == LStart(ask)
    ensures s.threads[t].op.pc.HAddr?
  {
  }

  lemma OpStarts(s: State, t: nat, fail: bool, ask: Ask)
    requires Ready(s, t) && Busying(s, t) && !InCall(s.threads[t].call) && ThreadOK(s, t)
    requires t < |OpStep(s, t, fail).threads| && OpStep(s, t, fail).threads[t].call == LStart(ask)
    ensures ask.cell < |s.cells| && IsLive(s, ask.cell) && ask.since == Now(s, ask.cell)
    ensures OpStep(s, t, fail).cells == s.cells
  {
    if s.threads[t].op.Sweeping? { SweepStarts(s, t, ask); }
  }

  /** A load begins with the version that is current. */
  lemma LoadStarts(s: State, a: Action, t: nat, ask: Ask)
    requires Inv(s) && Enabled(s, a) && t < |s.threads| && !InCall(s.threads[t].call)
    requires t < |Apply(s, a).threads| && Apply(s, a).threads[t].call == LStart(ask)
    ensures ask.cell < |s.cells| && IsLive(s, ask.cell) && ask.since == Now(s, ask.cell)
    ensures Apply(s, a).cells == s.cells
  {
    if Actor(a) != t {
      Others(s, a, t);
    } else if a.Run? {
      Unfold(s, t);
      OpStarts(s, t, a.fail, ask);
    }
  }

  lemma {:induction false} LoadKeepsAsk(run: seq<State>, i: nat, j: nat, t: nat, ask: Ask, m: nat)
    requires IsRun(run) && LoadRuns(run, i, j, t, ask) && i < m <= j
    ensures Asks(run[m], t, ask)
    decreases m
  {
    if m > i + 1 {
      LoadKeepsAsk(run, i, j, t, ask, m - 1);
      StepKeepsAsk(run, m - 1, t, ask);
    }
  }

  lemma DoneSaw(run: seq<State>, j: nat, t: nat, ask: Ask)
    requires IsRun(run) && j < |run| && Asks(run[j], t, ask) && run[j].threads[t].call.Done?
    ensures run[j].threads[t].call.g < |run[j].guards|
    ensures Seen(run[j], ask.cell, ask.since, run[j].guards[run[j].threads[t].call.g].ptr)
  {
    RunOK(run, j);
    assert ThreadOK(run[j], t);
  }

  /** Linearizability of loads: the pointer that a load returns was in its cell at some moment
      between the beginning and the end of that load; the cell is the one that the user named.  This holds for public loads, for the loads of
      `compare_and_swap`, and for the loads that writers run to help others. */
  lemma LoadReturnsHeldValue(run: seq<State>, i: nat, j: nat, t: nat, ask: Ask)
    requires IsRun(run) && LoadRuns(run, i, j, t, ask)
    ensures run[j].threads[t].call.g < |run[j].guards|
    ensures exists k :: i < k <= j && Holds(run[k], ask.cell, run[j].guards[run[j].threads[t].call.g].ptr)
    ensures forall c, full :: Begins(run, i, BeginLoad(t, c, full)) ==> ask.cell == c && ask.full == full
    ensures forall c, cur, nv :: Begins(run, i, BeginCas(t, c, cur, nv)) ==> ask.cell == c && !ask.full
  {
    var a := StepOf(run, i);
    LoadStarts(run[i], a, t, ask);
    LoadKeepsAsk(run, i, j, t, ask, j);
    DoneSaw(run, j, t, ask);
    var p := run[j].guards[run[j].threads[t].call.g].ptr;
    var v :| ask.since <= v < |run[j].cells[ask.cell].hist| && run[j].cells[ask.cell].hist[v] == p;
    VersionWasHeld(run, i + 1, j, ask.cell, v);
  }
}
