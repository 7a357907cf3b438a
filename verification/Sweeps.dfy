/** Debt slots, the node list, and what a sweep does from its beginning to its end. */
module Sweeps {
  import opened Protocol
  import opened Steps
  import opened Invariant
  import opened Moves
  import opened SweepProofs
  import opened CallProofs
  import opened Preservation
  import opened Runs
  import opened Progress

  // ---------------------------------------------------------------------------------------------
  // Slots

  /** A slot is filled only when it was free and only by the owner of its node, and a pointer in it
      is never replaced by another one. */
  ghost predicate SlotMove(a: Slot, b: Slot, own: bool) {
    b == a || b.Free? || (a.Free? && b.Owes? && own)
  }

  lemma PutMoves(s: State, t: nat, n: nat, j: nat)
    requires Inv(s) && Ready(s, t) && (s.threads[t].call.LPut? || s.threads[t].call.FSlot?) && n < |s.nodes| && j < SLOTS
    ensures |s.nodes[n].slots| == SLOTS && |CallStep(s, t).nodes| == |s.nodes| && |CallStep(s, t).nodes[n].slots| == SLOTS
    ensures SlotMove(s.nodes[n].slots[j], CallStep(s, t).nodes[n].slots[j], s.nodes[n].use == Used(t))
  {
    assert NodeOK(s, n) && ThreadOK(s, t);
    if s.threads[t].call.FSlot? { HelpingFree(s, t); }
  }

  lemma CallMovesSlots(s: State, t: nat, n: nat, j: nat)
    requires Ready(s, t) && InCall(s.threads[t].call) && !s.threads[t].call.LPut? && !s.threads[t].call.FSlot?
    requires n < |s.nodes| && j < |s.nodes[n].slots|
    ensures |CallStep(s, t).nodes| == |s.nodes| && |CallStep(s, t).nodes[n].slots| == |s.nodes[n].slots|
    ensures SlotMove(s.nodes[n].slots[j], CallStep(s, t).nodes[n].slots[j], false)
  {
    var c := s.threads[t].call;
    if HasDebt(c) { assert NodeShape(s, s.guards[c.g].debt.node); }
  }

  lemma SweepMovesSlots(s: State, t: nat, n: nat, j: nat)
    requires Ready(s, t) && s.threads[t].op.Sweeping? && (s.threads[t].op.pc.HLoad? ==> s.threads[t].call.Done?)
    requires n < |s.nodes| && j < |s.nodes[n].slots|
    ensures |SweepStep(s, t).nodes| == |s.nodes| && |SweepStep(s, t).nodes[n].slots| == |s.nodes[n].slots|
    ensures SlotMove(s.nodes[n].slots[j], SweepStep(s, t).nodes[n].slots[j], false)
  {
    if s.threads[t].op.pc.Pay? { assert NodeShape(s, s.threads[t].op.pc.n); }
  }

  lemma OpMovesSlots(s: State, t: nat, fail: bool, n: nat, j: nat)
    requires Ready(s, t) && Busying(s, t) && !InCall(s.threads[t].call) && !s.threads[t].op.Sweeping?
    requires n < |s.nodes| && j < |s.nodes[n].slots|
    ensures |s.nodes| <= |OpStep(s, t, fail).nodes| && |OpStep(s, t, fail).nodes[n].slots| == |s.nodes[n].slots|
    ensures OpStep(s, t, fail).nodes[n].slots[j] == s.nodes[n].slots[j]
  {
  }

  lemma SlotDiscipline(s: State, a: Action, n: nat, j: nat)
    requires Inv(s) && Enabled(s, a) && n < |s.nodes| && j < SLOTS
    ensures |s.nodes[n].slots| == SLOTS && |s.nodes| <= |Apply(s, a).nodes| && |Apply(s, a).nodes[n].slots| == SLOTS
    ensures SlotMove(s.nodes[n].slots[j], Apply(s, a).nodes[n].slots[j], s.nodes[n].use.Used? && s.nodes[n].use.owner == Actor(a))
  {
    assert NodeOK(s, n);
    if a.Run? {
      Unfold(s, a.t);
      if InCall(s.threads[a.t].call) {
        if s.threads[a.t].call.LPut? || s.threads[a.t].call.FSlot? {
          PutMoves(s, a.t, n, j);
        } else {
          CallMovesSlots(s, a.t, n, j);
        }
      } else if s.threads[a.t].op.Sweeping? {
        SweepMovesSlots(s, a.t, n, j);
      } else {
        OpMovesSlots(s, a.t, a.fail, n, j);
      }
    }
  }

  // ---------------------------------------------------------------------------------------------
  // Space offers

  lemma CallKeepsOffer(s: State, t: nat, n: nat)
    requires Ready(s, t) && InCall(s.threads[t].call) && OwnOK(s, t) && CtlOK(s, t) && n < |s.nodes|
    requires s.nodes[n].control.Gen?
    ensures n < |CallStep(s, t).nodes| && CallStep(s, t).nodes[n].offer == s.nodes[n].offer
  {
    var c := s.threads[t].call;
    if HasDebt(c) { assert NodeShape(s, s.guards[c.g].debt.node); }
  }

  lemma SweepKeepsOffer(s: State, t: nat, n: nat)
    requires Ready(s, t) && s.threads[t].op.Sweeping? && (s.threads[t].op.pc.HLoad? ==> s.threads[t].call.Done?)
    requires OwnOK(s, t) && CtlOK(s, t) && n < |s.nodes| && s.nodes[n].control.Gen?
    ensures n < |SweepStep(s, t).nodes| && SweepStep(s, t).nodes[n].offer == s.nodes[n].offer
  {
    if s.threads[t].op.pc.Pay? { assert NodeShape(s, s.threads[t].op.pc.n); }
  }

  lemma OpKeepsOffer(s: State, t: nat, fail: bool, n: nat)
    requires Ready(s, t) && Busying(s, t) && !InCall(s.threads[t].call) && !s.threads[t].op.Sweeping? && n < |s.nodes|
    ensures n < |OpStep(s, t, fail).nodes| && OpStep(s, t, fail).nodes[n].offer == s.nodes[n].offer
  {
  }

  /** While a generation is in the control of a node, nobody changes its space offer. */
  lemma OfferIsFixed(s: State, a: Action, n: nat)
    requires Inv(s) && Enabled(s, a) && n < |s.nodes| && s.nodes[n].control.Gen?
    ensures n < |Apply(s, a).nodes| && Apply(s, a).nodes[n].offer == s.nodes[n].offer
  {
    if a.Run? {
      Unfold(s, a.t);
      if InCall(s.threads[a.t].call) {
        CallKeepsOffer(s, a.t, n);
      } else if s.threads[a.t].op.Sweeping? {
        SweepKeepsOffer(s, a.t, n);
      } else {
        OpKeepsOffer(s, a.t, a.fail, n);
      }
    }
  }

  /** Over a whole run the list of nodes only grows, and its links never change. */
  lemma {:induction false} ListOnlyGrows(run: seq<State>, i: nat, j: nat, n: nat)
    requires IsRun(run) && i <= j < |run| && n < |run[i].nodes|
    ensures n < |run[j].nodes| && run[j].nodes[n].next == run[i].nodes[n].next == n - 1
    ensures run[i].head <= run[j].head
    decreases j - i
  {
    RunOK(run, i);
    RunOK(run, j);
    assert NodeOK(run[i], n);
    if i < j {
      ListOnlyGrows(run, i, j - 1, n);
      NodesGrow(run, j - 1);
      assert NodeOK(run[j], n);
    }
  }

  lemma NodesGrow(run: seq<State>, k: nat)
    requires IsRun(run) && k + 1 < |run|
    ensures |run[k].nodes| <= |run[k + 1].nodes|
    ensures run[k + 1].head == |run[k + 1].nodes| - 1 && run[k].head == |run[k].nodes| - 1
  {
    var a := StepOf(run, k);
    if |run[k].nodes| > 0 { SlotDiscipline(run[k], a, 0, 0); }
  }

  // ---------------------------------------------------------------------------------------------
  // A sweep tries every slot once

  /** From `a` to `b` thread `t` tries to pay slot `x` of node `n`. */
  predicate Tries(a: State, b: State, t: nat, n: nat, x: nat) {
    && t < |a.threads| && t < |b.threads|
    && a.threads[t].op.Sweeping? && a.threads[t].op.pc == Pay(n, x) && b.threads[t].op != a.threads[t].op
  }

  ghost function TryCount(run: seq<State>, i: nat, j: nat, t: nat, n: nat, x: nat): nat
    requires i <= j < |run|
    decreases j - i
  {
    if i == j then 0 else TryCount(run, i, j - 1, t, n, x) + (if Tries(run[j - 1], run[j], t, n, x) then 1 else 0)
  }

  predicate SweepsJob(s: State, t: nat, job: Job) {
    t < |s.threads| && s.threads[t].op.Sweeping? && s.threads[t].op.job == job
  }

  function ToPay(s: State, t: nat, n: nat, x: nat): nat {
    if t < |s.threads| && s.threads[t].op.Sweeping? && WillPay(s.threads[t].op.pc, n, x) then 1 else 0
  }

  /** Inside `help` a sweep stays with its node and its job. */
  lemma HelpStays(s: State, t: nat)
    requires Ready(s, t) && s.threads[t].op.Sweeping? && (s.threads[t].op.pc.HLoad? ==> s.threads[t].call.Done?)
    requires HasObs(s.threads[t].op.pc) && (s.threads[t].op.pc.HDrop? ==> s.threads[t].op.pc.look.o.n == s.threads[t].op.pc.n)
    ensures var s' := SweepStep(s, t);
      && t < |s'.threads| && s'.threads[t].op.Sweeping? && s'.threads[t].op.job == s.threads[t].op.job
      && AtNode(s'.threads[t].op.pc) && Place(s'.threads[t].op.pc) == Place(s.threads[t].op.pc)
      && (s'.threads[t].op.pc.Pay? ==> s'.threads[t].op.pc.i == 0)
      && !s'.threads[t].op.pc.PayInc? && !s'.threads[t].op.pc.Release?
  {
    if HasReplacement(s.threads[t].op.pc) { OfferStays(s, t); }
  }

  lemma OfferStays(s: State, t: nat)
    requires Ready(s, t) && s.threads[t].op.Sweeping? && HasReplacement(s.threads[t].op.pc)
    ensures var s' := SweepStep(s, t);
      && t < |s'.threads| && s'.threads[t].op.Sweeping? && s'.threads[t].op.job == s.threads[t].op.job
      && AtNode(s'.threads[t].op.pc) && Place(s'.threads[t].op.pc) == Place(s.threads[t].op.pc)
      && (s'.threads[t].op.pc.Pay? ==> s'.threads[t].op.pc.i == 0)
      && !s'.threads[t].op.pc.PayInc? && !s'.threads[t].op.pc.Release?
  {
  }

  lemma SweepTries(s: State, t: nat, n: nat, x: nat)
    requires Ready(s, t) && OpOK(s, t) && s.threads[t].op.Sweeping? && (s.threads[t].op.pc.HLoad? ==> s.threads[t].call.Done?)
    requires t < |SweepStep(s, t).threads| && SweepStep(s, t).threads[t].op.Sweeping?
    requires n < |s.nodes| && x < SLOTS && s.head == |s.nodes| - 1
    requires s.threads[t].op.pc.Release? ==> s.nodes[s.threads[t].op.pc.n].next == s.threads[t].op.pc.n - 1
    ensures SweepStep(s, t).threads[t].op.job == s.threads[t].op.job
    ensures ToPay(SweepStep(s, t), t, n, x) + (if s.threads[t].op.pc == Pay(n, x) then 1 else 0) == ToPay(s, t, n, x)
    ensures s.threads[t].op.pc == Pay(n, x) ==> SweepStep(s, t).threads[t].op != s.threads[t].op
  {
    if HasObs(s.threads[t].op.pc) {
      HelpStays(s, t);
    } else if s.threads[t].op.pc.Pay? {
      PayTries(s, t, n, x);
    } else {
      SweepKeepsJob(s, t);
      SweptLeaves(s, t);
      RestTries(s, t, n, x);
    }
  }

  lemma SweptLeaves(s: State, t: nat)
    requires Ready(s, t) && s.threads[t].op.Sweeping? && (s.threads[t].op.pc.HLoad? ==> s.threads[t].call.Done?)
    ensures s.threads[t].op.pc.Swept? ==> t < |SweepStep(s, t).threads| && SweepStep(s, t).threads[t].op.Idle?
  {
  }

  lemma PayTries(s: State, t: nat, n: nat, x: nat)
    requires Ready(s, t) && s.threads[t].op.Sweeping? && s.threads[t].op.pc.Pay? && x < SLOTS
    ensures t < |SweepStep(s, t).threads| && SweepStep(s, t).threads[t].op.Sweeping?
    ensures SweepStep(s, t).threads[t].op.job == s.threads[t].op.job
    ensures ToPay(SweepStep(s, t), t, n, x) + (if s.threads[t].op.pc == Pay(n, x) then 1 else 0) == ToPay(s, t, n, x)
    ensures SweepStep(s, t).threads[t].op != s.threads[t].op
  {
  }

  /** Outside `help` and the payments, only the end of a sweep leaves it. */
  lemma SweepKeepsJob(s: State, t: nat)
    requires Ready(s, t) && s.threads[t].op.Sweeping? && !s.threads[t].op.pc.Pay? && !HasObs(s.threads[t].op.pc)
    ensures t < |SweepStep(s, t).threads|
    ensures !s.threads[t].op.pc.Swept? ==>
      SweepStep(s, t).threads[t].op.Sweeping? && SweepStep(s, t).threads[t].op.job == s.threads[t].op.job
  {
    var pc := s.threads[t].op.pc;
    if pc.HRead? || pc.HStore? || pc.HDrop? { LookKeepsJob(s, t); } else if pc.Release? || pc.Reserve? { PassKeepsJob(s, t); }
  }

  lemma LookKeepsJob(s: State, t: nat)
    requires Ready(s, t) && s.threads[t].op.Sweeping? && !HasObs(s.threads[t].op.pc)
    requires s.threads[t].op.pc.HRead? || s.threads[t].op.pc.HStore? || s.threads[t].op.pc.HDrop?
    ensures t < |SweepStep(s, t).threads|
    ensures SweepStep(s, t).threads[t].op.Sweeping? && SweepStep(s, t).threads[t].op.job == s.threads[t].op.job
  {
  }

  lemma PassKeepsJob(s: State, t: nat)
    requires Ready(s, t) && s.threads[t].op.Sweeping? && (s.threads[t].op.pc.Release? || s.threads[t].op.pc.Reserve?)
    ensures t < |SweepStep(s, t).threads|
    ensures SweepStep(s, t).threads[t].op.Sweeping? && SweepStep(s, t).threads[t].op.job == s.threads[t].op.job
  {
  }

  lemma RestTries(s: State, t: nat, n: nat, x: nat)
    requires Ready(s, t) && s.threads[t].op.Sweeping? && !s.threads[t].op.pc.Pay? && !HasObs(s.threads[t].op.pc)
    requires !s.threads[t].op.pc.Swept?
    requires n < |s.nodes| && x < SLOTS && s.head == |s.nodes| - 1
    requires s.threads[t].op.pc.Release? ==> s.nodes[s.threads[t].op.pc.n].next == s.threads[t].op.pc.n - 1
    ensures ToPay(SweepStep(s, t), t, n, x) == ToPay(s, t, n, x)
  {
    if s.threads[t].op.pc.HRead? || s.threads[t].op.pc.HStore? || s.threads[t].op.pc.HDrop? {
      LookTries(s, t, n, x);
    } else if s.threads[t].op.pc.Release? || s.threads[t].op.pc.Reserve? {
      PassTries(s, t, n, x);
    }
  }

  lemma PassTries(s: State, t: nat, n: nat, x: nat)
    requires Ready(s, t) && s.threads[t].op.Sweeping? && (s.threads[t].op.pc.Release? || s.threads[t].op.pc.Reserve?)
    requires n < |s.nodes| && x < SLOTS
    requires s.threads[t].op.pc.Release? ==> s.nodes[s.threads[t].op.pc.n].next == s.threads[t].op.pc.n - 1
    ensures ToPay(SweepStep(s, t), t, n, x) == ToPay(s, t, n, x)
  {
  }

  lemma LookTries(s: State, t: nat, n: nat, x: nat)
    requires Ready(s, t) && s.threads[t].op.Sweeping? && !HasObs(s.threads[t].op.pc)
    requires s.threads[t].op.pc.HRead? || s.threads[t].op.pc.HStore? || s.threads[t].op.pc.HDrop?
    requires n < |s.nodes| && x < SLOTS
    ensures ToPay(SweepStep(s, t), t, n, x) == ToPay(s, t, n, x)
  {
  }

  lemma StepTries(run: seq<State>, k: nat, t: nat, n: nat, x: nat, job: Job)
    requires IsRun(run) && k + 1 < |run| && SweepsJob(run[k], t, job) && SweepsJob(run[k + 1], t, job)
    requires n < |run[k].nodes| && x < SLOTS
    ensures ToPay(run[k + 1], t, n, x) + (if Tries(run[k], run[k + 1], t, n, x) then 1 else 0) == ToPay(run[k], t, n, x)
  {
    var a := StepOf(run, k);
    var s := run[k];
    if Actor(a) != t {
      Others(s, a, t);
    } else {
      assert ThreadOK(s, t);
      Unfold(s, t);
      if InCall(s.threads[t].call) {
        CallKeepsOp(s, t);
      } else {
        if s.threads[t].op.pc.Release? { assert NodeOK(s, s.threads[t].op.pc.n); }
        SweepTries(s, t, n, x);
      }
    }
  }

  lemma {:induction false} TriesSoFar(run: seq<State>, i: nat, j: nat, t: nat, n: nat, x: nat, job: Job)
    requires IsRun(run) && i <= j < |run| && (forall m :: i <= m <= j ==> SweepsJob(run[m], t, job))
    requires n < |run[i].nodes| && x < SLOTS
    ensures TryCount(run, i, j, t, n, x) + ToPay(run[j], t, n, x) == ToPay(run[i], t, n, x)
    decreases j - i
  {
    if i < j {
      TriesSoFar(run, i, j - 1, t, n, x, job);
      ListOnlyGrows(run, i, j - 1, n);
      StepTries(run, j - 1, t, n, x, job);
    }
  }

  /** A sweep tries each slot of each node that existed when its pointer was taken out exactly once,
      while other threads publish nodes, load and write. */
  lemma SweepTriesEverySlotOnce(run: seq<State>, i: nat, j: nat, t: nat, n: nat, x: nat, job: Job)
    requires IsRun(run) && i <= j < |run| && (forall m :: i <= m <= j ==> SweepsJob(run[m], t, job))
    requires SweepsJob(run[i], t, job) && run[i].threads[t].op.pc.Prepay?
    requires SweepsJob(run[j], t, job) && run[j].threads[t].op.pc.Swept?
    requires n < |run[i].nodes| && x < SLOTS
    ensures TryCount(run, i, j, t, n, x) == 1
  {
    TriesSoFar(run, i, j, t, n, x, job);
  }
}
