/** Loads are wait-free, and the help loop is bounded by what happens to the helped node. */
module Progress {
  import opened Protocol
  import opened Steps
  import opened Invariant
  import opened Moves
  import opened SweepProofs
  import opened Preservation
  import opened Runs

  /** An upper bound on the accesses that a call still makes. */
  function CallRank(c: Call): nat {
    match c
    case LStart(_) => 30
    case LScan(_, _, i) => if i < FAST_SLOTS then 29 - i else 1
    case LPut(_, _, _) => 21
    case LConfirm(_, _, _) => 20
    case LPay(_, _, _) => 19
    case FAddr(_) => 15
    case FCtrl(_) => 14
    case FRead(_, _) => 13
    case FSlot(_, _, _) => 12
    case FConf(_, _, _, _) => 11
    case FEnv(_, _, _, _, _) => 8
    case FOffer(_, _, _, _, _) => 7
    case FPay(_, _, _, _) => 6
    case FDec(_, _, _, _) => 5
    case InInc(_, _, _) => 4
    case InPay(_, _, _) => 3
    case InDec(_, _, _) => 2
    case DrPay(_) => 2
    case DrDec(_) => 1
    case _ => 0
  }

  /** Every access of a call brings it closer to its end, whatever the other threads do. */
  lemma CallAdvances(s: State, t: nat)
    requires Ready(s, t) && InCall(s.threads[t].call) && OwnOK(s, t) && CtlOK(s, t)
    ensures t < |CallStep(s, t).threads| && CallRank(CallStep(s, t).threads[t].call) < CallRank(s.threads[t].call)
  {
    var c := s.threads[t].call;
    if c.LScan? {
      ScanAdvances(s, t);
    } else if c.FConf? {
      ConfAdvances(s, t);
    } else if Paying(c) {
      PayAdvances(s, t);
    } else if c.LStart? || c.LPut? || c.LConfirm? {
      AttemptAdvances(s, t);
    } else if c.FAddr? || c.FCtrl? || c.FRead? || c.FSlot? || c.FEnv? || c.FOffer? {
      FallbackAdvances(s, t);
    } else {
      CountAdvances(s, t);
    }
  }

  lemma FallbackAdvances(s: State, t: nat)
    requires Ready(s, t)
    requires var c := s.threads[t].call; c.FAddr? || c.FCtrl? || c.FRead? || c.FSlot? || c.FEnv? || c.FOffer?
    ensures t < |CallStep(s, t).threads| && CallRank(CallStep(s, t).threads[t].call) < CallRank(s.threads[t].call)
  {
  }

  lemma CountAdvances(s: State, t: nat)
    requires Ready(s, t)
    requires var c := s.threads[t].call; c.FDec? || c.InInc? || c.InDec? || c.DrDec?
    ensures t < |CallStep(s, t).threads| && CallRank(CallStep(s, t).threads[t].call) < CallRank(s.threads[t].call)
  {
    if s.threads[t].call.FDec? || s.threads[t].call.DrDec? { ReleaseAdvances(s, t); }
  }

  lemma ReleaseAdvances(s: State, t: nat)
    requires Ready(s, t) && (s.threads[t].call.FDec? || s.threads[t].call.DrDec?)
    ensures t < |CallStep(s, t).threads| && CallRank(CallStep(s, t).threads[t].call) < CallRank(s.threads[t].call)
  {
  }

  lemma AttemptAdvances(s: State, t: nat)
    requires Ready(s, t) && (s.threads[t].call.LStart? || s.threads[t].call.LPut? || s.threads[t].call.LConfirm?)
    ensures t < |CallStep(s, t).threads| && CallRank(CallStep(s, t).threads[t].call) < CallRank(s.threads[t].call)
  {
  }

  lemma ScanAdvances(s: State, t: nat)
    requires Ready(s, t) && s.threads[t].call.LScan?
    ensures t < |CallStep(s, t).threads| && CallRank(CallStep(s, t).threads[t].call) < CallRank(s.threads[t].call)
  {
  }

  lemma ConfAdvances(s: State, t: nat)
    requires Ready(s, t) && s.threads[t].call.FConf? && OwnOK(s, t) && CtlOK(s, t)
    ensures t < |CallStep(s, t).threads| && CallRank(CallStep(s, t).threads[t].call) < CallRank(s.threads[t].call)
  {
  }

  lemma PayAdvances(s: State, t: nat)
    requires Ready(s, t)
    requires Paying(s.threads[t].call)
    ensures t < |CallStep(s, t).threads| && CallRank(CallStep(s, t).threads[t].call) < CallRank(s.threads[t].call)
  {
    if s.threads[t].call.LPay? || s.threads[t].call.FPay? { UnusedAdvances(s, t); }
  }

  lemma UnusedAdvances(s: State, t: nat)
    requires Ready(s, t) && (s.threads[t].call.LPay? || s.threads[t].call.FPay?)
    ensures t < |CallStep(s, t).threads| && CallRank(CallStep(s, t).threads[t].call) < CallRank(s.threads[t].call)
  {
  }

  /** A thread inside a call can always make its next access. */
  lemma CallEnabled(s: State, t: nat)
    requires Inv(s) && t < |s.threads| && InCall(s.threads[t].call)
    ensures Enabled(s, Run(t, false))
  {
    InvShape(s);
    assert ThreadOK(s, t);
  }

  /** The accesses of thread `t` from state `i` to state `j`. */
  ghost function OwnSteps(run: seq<State>, i: nat, j: nat, t: nat): nat
    requires i <= j < |run|
    decreases j - i
  {
    if i == j then 0 else OwnSteps(run, i, j - 1, t) + (if Moved(run[j - 1], run[j], t) then 1 else 0)
  }

  predicate Moved(a: State, b: State, t: nat) {
    t < |a.threads| && t < |b.threads| && a.threads[t] != b.threads[t]
  }

  lemma StepRank(run: seq<State>, k: nat, t: nat)
    requires IsRun(run) && k + 1 < |run| && t < |run[k].threads| && t < |run[k + 1].threads| && InCall(run[k].threads[t].call)
    ensures run[k + 1].threads[t] == run[k].threads[t] || CallRank(run[k + 1].threads[t].call) < CallRank(run[k].threads[t].call)
  {
    var a := StepOf(run, k);
    if Actor(a) != t {
      Others(run[k], a, t);
    } else {
      assert ThreadOK(run[k], t);
      Unfold(run[k], t);
      CallAdvances(run[k], t);
    }
  }

  lemma {:induction false} StepsLeft(run: seq<State>, i: nat, j: nat, t: nat)
    requires IsRun(run) && i <= j < |run| && t < |run[i].threads| && t < |run[j].threads|
    requires forall m :: i <= m < j ==> t < |run[m].threads| && InCall(run[m].threads[t].call)
    ensures OwnSteps(run, i, j, t) + CallRank(run[j].threads[t].call) <= CallRank(run[i].threads[t].call)
    decreases j - i
  {
    if i < j {
      StepsLeft(run, i, j - 1, t);
      StepRank(run, j - 1, t);
    }
  }

  /** Wait-freedom, in every interleaving: the accesses that a load has made, and those that it may still
      have to make, are at most 30; and until it has returned, its thread can make the next one. */
  lemma LoadIsWaitFree(run: seq<State>, i: nat, j: nat, t: nat, ask: Ask)
    requires IsRun(run) && i < j < |run| && t < |run[i + 1].threads| && run[i + 1].threads[t].call == LStart(ask)
    requires (forall m :: i < m < j ==> t < |run[m].threads| && InCall(run[m].threads[t].call)) && t < |run[j].threads|
    ensures OwnSteps(run, i + 1, j, t) + CallRank(run[j].threads[t].call) <= 30
    ensures InCall(run[j].threads[t].call) ==> CallRank(run[j].threads[t].call) > 0 && Enabled(run[j], Run(t, false))
  {
    StepsLeft(run, i + 1, j, t);
    if InCall(run[j].threads[t].call) {
      RunOK(run, j);
      CallEnabled(run[j], t);
    }
  }

  // ---------------------------------------------------------------------------------------------
  // The help loop

  /** Thread `t` is in `help` on node `n`. */
  predicate HelpsAt(s: State, t: nat, n: nat) {
    && t < |s.threads| && n < |s.nodes| && s.threads[t].op.Sweeping?
    && (s.threads[t].op.pc == HRead(n) || (HasObs(s.threads[t].op.pc) && ObsOf(s.threads[t].op.pc).n == n))
  }

  /** From `a` to `b` thread `t` found a new generation to help: a turn of the loop begins. */
  predicate Turns(a: State, b: State, t: nat) {
    && t < |a.threads| && t < |b.threads|
    && a.threads[t].op.Sweeping? && b.threads[t].op.Sweeping? && HasObs(b.threads[t].op.pc)
    && (a.threads[t].op.pc.HRead? || (a.threads[t].op.pc.HRecheck? && b.threads[t].op.pc.HAddr?) ||
        (a.threads[t].op.pc.HCas? && b.threads[t].op.pc.HDrop?))
  }

  ghost function TurnCount(run: seq<State>, i: nat, j: nat, t: nat): nat
    requires i <= j < |run|
    decreases j - i
  {
    if i == j then 0 else TurnCount(run, i, j - 1, t) + (if Turns(run[j - 1], run[j], t) then 1 else 0)
  }

  /** How often the control of node `n` changed. */
  ghost function ChangeCount(run: seq<State>, i: nat, j: nat, n: nat): nat
    requires i <= j < |run|
    decreases j - i
  {
    if i == j then 0 else ChangeCount(run, i, j - 1, n) + (if Changed(run[j - 1], run[j], n) then 1 else 0)
  }

  predicate Changed(a: State, b: State, n: nat) {
    n < |a.nodes| && n < |b.nodes| && a.nodes[n].control != b.nodes[n].control
  }

  /** The observation is still what the control says. */
  predicate Fresh(s: State, t: nat, n: nat)
    requires HelpsAt(s, t, n)
  {
    HasObs(s.threads[t].op.pc) && SameGen(s.nodes[n].control, ObsOf(s.threads[t].op.pc).gen)
  }

  lemma HelpStep(s: State, t: nat, n: nat)
    requires Ready(s, t) && ThreadOK(s, t) && HelpsAt(s, t, n) && (s.threads[t].op.pc.HLoad? ==> s.threads[t].call.Done?)
    requires HelpsAt(SweepStep(s, t), t, n)
    ensures SweepStep(s, t).nodes[n].control == s.nodes[n].control
    ensures Turns(s, SweepStep(s, t), t) ==> !Fresh(s, t, n) && Fresh(SweepStep(s, t), t, n)
    ensures !Turns(s, SweepStep(s, t), t) ==> !s.threads[t].op.pc.HRead? && (Fresh(s, t, n) ==> Fresh(SweepStep(s, t), t, n))
  {
    var pc := s.threads[t].op.pc;
    if pc.HAddr? || pc.HLoad? || pc.HTheir? || pc.HMine? || pc.HWrite? || pc.HDrop? { HelpGoesOn(s, t, n); }
  }

  /** Between two looks at the control the observation stays. */
  lemma HelpGoesOn(s: State, t: nat, n: nat)
    requires Ready(s, t) && ObsOK(s, t) && HelpsAt(s, t, n) && (s.threads[t].op.pc.HLoad? ==> s.threads[t].call.Done?)
    requires var pc := s.threads[t].op.pc; pc.HAddr? || pc.HLoad? || pc.HTheir? || pc.HMine? || pc.HWrite? || pc.HDrop?
    ensures var s' := SweepStep(s, t);
      && HelpsAt(s', t, n) && HasObs(s'.threads[t].op.pc) && ObsOf(s'.threads[t].op.pc) == ObsOf(s.threads[t].op.pc)
      && s'.nodes == s.nodes && !Turns(s, s', t)
  {
  }

  lemma OwnHelpStep(run: seq<State>, k: nat, t: nat, n: nat)
    requires IsRun(run) && k + 1 < |run| && HelpsAt(run[k], t, n) && HelpsAt(run[k + 1], t, n)
    ensures run[k + 1].threads[t].op == run[k].threads[t].op ||
      (&& run[k + 1].nodes[n].control == run[k].nodes[n].control
       && (Turns(run[k], run[k + 1], t) ==> !Fresh(run[k], t, n) && Fresh(run[k + 1], t, n))
       && (!Turns(run[k], run[k + 1], t) ==> !run[k].threads[t].op.pc.HRead? && (Fresh(run[k], t, n) ==> Fresh(run[k + 1], t, n))))
  {
    var a := StepOf(run, k);
    if Actor(a) != t {
      Others(run[k], a, t);
    } else {
      assert ThreadOK(run[k], t);
      Unfold(run[k], t);
      if InCall(run[k].threads[t].call) { CallKeepsOp(run[k], t); } else { HelpStep(run[k], t, n); }
    }
  }

  lemma CallKeepsOp(s: State, t: nat)
    requires Ready(s, t) && InCall(s.threads[t].call)
    ensures t < |CallStep(s, t).threads| && CallStep(s, t).threads[t].op == s.threads[t].op
  {
    var c := s.threads[t].call;
    if Paying(c) { PayingKeepsOp(s, t); } else if HasDebt(c) { DebtKeepsOp(s, t); }
  }

  lemma PayingKeepsOp(s: State, t: nat)
    requires Ready(s, t) && Paying(s.threads[t].call)
    ensures t < |CallStep(s, t).threads| && CallStep(s, t).threads[t].op == s.threads[t].op
  {
  }

  lemma DebtKeepsOp(s: State, t: nat)
    requires Ready(s, t) && HasDebt(s.threads[t].call) && !Paying(s.threads[t].call)
    ensures t < |CallStep(s, t).threads| && CallStep(s, t).threads[t].op == s.threads[t].op
  {
  }

  lemma {:induction false} HelpLoopCount(run: seq<State>, i: nat, j: nat, t: nat, n: nat)
    requires IsRun(run) && i <= j < |run|
    requires forall m :: i <= m <= j ==> HelpsAt(run[m], t, n)
    requires HelpsAt(run[i], t, n) && run[i].threads[t].op.pc == HRead(n)
    ensures TurnCount(run, i, j, t) <= 1 + ChangeCount(run, i, j, n)
    ensures TurnCount(run, i, j, t) <= ChangeCount(run, i, j, n) || Fresh(run[j], t, n)
    decreases j - i
  {
    if i < j {
      HelpLoopCount(run, i, j - 1, t, n);
      OwnHelpStep(run, j - 1, t, n);
    }
  }

  /** The help loop makes at most one turn more than the number of changes that were made to the
      helped control word meanwhile. */
  lemma HelpLoopIsBounded(run: seq<State>, i: nat, j: nat, t: nat, n: nat)
    requires IsRun(run) && i <= j < |run|
    requires forall m :: i <= m <= j ==> HelpsAt(run[m], t, n)
    requires HelpsAt(run[i], t, n) && run[i].threads[t].op.pc == HRead(n)
    ensures TurnCount(run, i, j, t) <= 1 + ChangeCount(run, i, j, n)
  {
    HelpLoopCount(run, i, j, t, n);
  }
}
