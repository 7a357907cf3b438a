/** How claims arise: every step, seen from the answers that loads have. */
module Claims {
  import opened Protocol
  import opened Steps
  import opened Invariant
  import opened Moves
  import opened CallProofs
  import opened SweepProofs
  import opened Runs
  import opened Progress
  import opened Sweeps
  import opened Writes
  import opened Objects

  // ---------------------------------------------------------------------------------------------
  // The control of another thread's node

  /** Thread `u` puts its replacement into the control of node `n`. */
  predicate HandsOver(s: State, u: nat, n: nat, k: Control) {
    && u < |s.threads| && n < |s.nodes| && s.threads[u].op.Sweeping? && s.threads[u].op.pc.HCas?
    && s.threads[u].op.pc.o.n == n && SameGen(s.nodes[n].control, s.threads[u].op.pc.o.gen)
    && k == Repl(s.threads[u].op.pc.mine, s.threads[u].op.pc.r)
  }

  lemma CallControl(s: State, u: nat, n: nat)
    requires Ready(s, u) && InCall(s.threads[u].call) && OwnOK(s, u) && n < |s.nodes| && s.threads[u].node != n
    ensures n < |CallStep(s, u).nodes| && CallStep(s, u).nodes[n].control == s.nodes[n].control
  {
    var c := s.threads[u].call;
    if HasDebt(c) { assert NodeShape(s, s.guards[c.g].debt.node); }
  }

  lemma SweepControl(s: State, u: nat, n: nat)
    requires Ready(s, u) && s.threads[u].op.Sweeping? && (s.threads[u].op.pc.HLoad? ==> s.threads[u].call.Done?) && n < |s.nodes|
    ensures n < |SweepStep(s, u).nodes|
    ensures SweepStep(s, u).nodes[n].control == s.nodes[n].control || HandsOver(s, u, n, SweepStep(s, u).nodes[n].control)
  {
    if s.threads[u].op.pc.Pay? { assert NodeShape(s, s.threads[u].op.pc.n); }
  }

  lemma OpControl(s: State, u: nat, fail: bool, n: nat)
    requires Ready(s, u) && Busying(s, u) && !InCall(s.threads[u].call) && !s.threads[u].op.Sweeping? && n < |s.nodes|
    ensures n < |OpStep(s, u, fail).nodes| && OpStep(s, u, fail).nodes[n].control == s.nodes[n].control
  {
  }

  /** The control of a node changes only by its owner, or by a helper's hand-over. */
  lemma ControlMoves(s: State, a: Action, t: nat)
    requires Inv(s) && Enabled(s, a) && t < |s.threads| && Actor(a) != t && 0 <= s.threads[t].node
    ensures var n := s.threads[t].node;
      && n < |s.nodes| && n < |Apply(s, a).nodes|
      && (|| Apply(s, a).nodes[n].control == s.nodes[n].control
          || (a.Run? && HandsOver(s, a.t, n, Apply(s, a).nodes[n].control)))
  {
    assert ThreadOK(s, t);
    var n := s.threads[t].node;
    if a.Run? {
      Unfold(s, a.t);
      if InCall(s.threads[a.t].call) {
        CallControl(s, a.t, n);
      } else if s.threads[a.t].op.Sweeping? {
        SweepControl(s, a.t, n);
      } else {
        OpControl(s, a.t, a.fail, n);
      }
    }
  }

  /** What a helper hands over, the helper claims for the reader's cell. */
  lemma HandedOver(s: State, u: nat, t: nat, k: Control, c: nat, since: nat, p: Ptr)
    requires Inv(s) && t < |s.threads| && 0 <= s.threads[t].node && HandsOver(s, u, s.threads[t].node, k)
    requires Published(s.threads[t].call) && s.threads[t].call.ask.cell == c && since <= s.threads[t].call.ask.since && k.val == p
    ensures Claimed(s, c, since, p)
  {
    assert ThreadOK(s, u) && ThreadOK(s, t);
    assert ThreadClaims(s, u, c, since, p);
  }

  lemma OtherCall(s: State, a: Action, t: nat, c: nat, since: nat, p: Ptr)
    requires Inv(s) && Enabled(s, a) && t < |s.threads| && Actor(a) != t
    requires t < |Apply(s, a).threads| && CallClaims(Apply(s, a), Apply(s, a).threads[t], c, since, p)
    ensures Source(s, c, since, p)
  {
    var s' := Apply(s, a);
    Others(s, a, t);
    assert ThreadOK(s, t);
    var th := s.threads[t];
    if Published(th.call) {
      ControlMoves(s, a, t);
      if s'.nodes[th.node].control == s.nodes[th.node].control {
        assert ThreadClaims(s, t, c, since, p);
      } else {
        HandedOver(s, a.t, t, s'.nodes[th.node].control, c, since, p);
      }
    } else {
      if th.call.Done? { GuardKeepsPtr(s, a, t, th.call.g); }
      assert ThreadClaims(s, t, c, since, p);
    }
  }

  // ---------------------------------------------------------------------------------------------
  // The acting thread

  predicate InFallback(c: Call) { c.FAddr? || c.FCtrl? || c.FRead? || c.FSlot? || c.FConf? || c.FEnv? || c.FOffer? }

  lemma FallbackClaim(s: State, t: nat, c: nat, since: nat, p: Ptr)
    requires Ready(s, t) && ThreadOK(s, t) && InFallback(s.threads[t].call)
    requires t < |CallStep(s, t).threads| && CallClaims(CallStep(s, t), CallStep(s, t).threads[t], c, since, p)
    ensures ThreadClaims(s, t, c, since, p) || Root(s, c, since, p)
  {
  }

  lemma AttemptClaim(s: State, t: nat, c: nat, since: nat, p: Ptr)
    requires Ready(s, t) && ThreadOK(s, t) && (s.threads[t].call.LStart? || s.threads[t].call.LScan? || s.threads[t].call.LPut? || s.threads[t].call.LConfirm?)
    requires t < |CallStep(s, t).threads| && CallClaims(CallStep(s, t), CallStep(s, t).threads[t], c, since, p)
    ensures Root(s, c, since, p)
  {
  }

  /** Our debt was paid by somebody else. */
  lemma PaidClaim(s: State, t: nat, c: nat, since: nat, p: Ptr)
    requires Ready(s, t) && ThreadOK(s, t) && s.threads[t].call.LPay? && GuardOK(s, s.threads[t].call.g)
    requires t < |CallStep(s, t).threads| && CallClaims(CallStep(s, t), CallStep(s, t).threads[t], c, since, p)
    ensures PaidExit(s, t, c, since, p)
  {
    assert NodeShape(s, s.guards[s.threads[t].call.g].debt.node);
  }

  lemma PayingClaim(s: State, t: nat, c: nat, since: nat, p: Ptr)
    requires Ready(s, t) && ThreadOK(s, t) && Paying(s.threads[t].call) && !s.threads[t].call.LPay?
    requires t < |CallStep(s, t).threads| && CallClaims(CallStep(s, t), CallStep(s, t).threads[t], c, since, p)
    ensures ThreadClaims(s, t, c, since, p)
  {
    assert NodeShape(s, s.guards[s.threads[t].call.g].debt.node);
  }

  lemma CountingClaim(s: State, t: nat, c: nat, since: nat, p: Ptr)
    requires Ready(s, t) && ThreadOK(s, t)
    requires s.threads[t].call.FDec? || s.threads[t].call.InInc? || s.threads[t].call.InDec? || s.threads[t].call.DrDec?
    requires t < |CallStep(s, t).threads| && CallClaims(CallStep(s, t), CallStep(s, t).threads[t], c, since, p)
    ensures ThreadClaims(s, t, c, since, p)
  {
  }

  lemma CallClaim(s: State, t: nat, c: nat, since: nat, p: Ptr)
    requires Inv(s) && Ready(s, t) && InCall(s.threads[t].call)
    requires t < |CallStep(s, t).threads| && CallClaims(CallStep(s, t), CallStep(s, t).threads[t], c, since, p)
    ensures Source(s, c, since, p)
  {
    Unfold(s, t);
    var k := s.threads[t].call;
    if InFallback(k) {
      FallbackClaim(s, t, c, since, p);
    } else if k.LPay? {
      PaidClaim(s, t, c, since, p);
    } else if Paying(k) {
      PayingClaim(s, t, c, since, p);
    } else if k.LStart? || k.LScan? || k.LPut? || k.LConfirm? {
      AttemptClaim(s, t, c, since, p);
    } else {
      CountingClaim(s, t, c, since, p);
    }
  }

  /** A helper gets its replacement from its own load. */
  lemma HelpClaim(s: State, t: nat, c: nat, since: nat, p: Ptr)
    requires Ready(s, t) && ThreadOK(s, t) && s.threads[t].op.Sweeping? && !InCall(s.threads[t].call)
    requires s.threads[t].op.pc.HLoad? ==> s.threads[t].call.Done?
    requires t < |SweepStep(s, t).threads| && ThreadClaims(SweepStep(s, t), t, c, since, p)
    ensures ThreadClaims(s, t, c, since, p)
  {
    if !HasObs(s.threads[t].op.pc) {
      SweepClaimsNothing(s, t, c, since, p);
    } else if HasReplacement(s.threads[t].op.pc) {
      ReplacementClaim(s, t, c, since, p);
    }
  }

  lemma ReplacementClaim(s: State, t: nat, c: nat, since: nat, p: Ptr)
    requires Ready(s, t) && OwnOK(s, t) && s.threads[t].op.Sweeping? && HasReplacement(s.threads[t].op.pc)
    requires t < |SweepStep(s, t).threads| && ThreadClaims(SweepStep(s, t), t, c, since, p)
    ensures OpClaims(s.threads[t].op, c, since, p)
  {
  }

  lemma SweepClaimsNothing(s: State, t: nat, c: nat, since: nat, p: Ptr)
    requires Ready(s, t) && OwnOK(s, t) && s.threads[t].op.Sweeping? && !HasObs(s.threads[t].op.pc)
    requires t < |SweepStep(s, t).threads|
    ensures !ThreadClaims(SweepStep(s, t), t, c, since, p)
  {
    if s.threads[t].op.pc.Pay? {
      PayStaysOut(s, t);
    } else if s.threads[t].op.pc.HRead? || s.threads[t].op.pc.HStore? || s.threads[t].op.pc.HDrop? {
      LookStaysOut(s, t);
    } else {
      RestStaysOut(s, t);
    }
  }

  /** The sweep has no nested call, and no replacement in hand. */
  predicate StaysOut(s: State, t: nat) {
    t < |s.threads| && s.threads[t].call.NoCall? && !(s.threads[t].op.Sweeping? && HasReplacement(s.threads[t].op.pc))
  }

  lemma PayStaysOut(s: State, t: nat)
    requires Ready(s, t) && s.threads[t].op.Sweeping? && s.threads[t].op.pc.Pay? && s.threads[t].call.NoCall?
    ensures StaysOut(SweepStep(s, t), t)
  {
  }

  lemma LookStaysOut(s: State, t: nat)
    requires Ready(s, t) && s.threads[t].op.Sweeping? && s.threads[t].call.NoCall?
    requires s.threads[t].op.pc.HRead? || s.threads[t].op.pc.HStore? || s.threads[t].op.pc.HDrop?
    ensures StaysOut(SweepStep(s, t), t)
  {
  }

  lemma RestStaysOut(s: State, t: nat)
    requires Ready(s, t) && s.threads[t].op.Sweeping? && s.threads[t].call.NoCall?
    requires s.threads[t].op.pc.Prepay? || s.threads[t].op.pc.Head? || s.threads[t].op.pc.Reserve? || s.threads[t].op.pc.PayInc? ||
      s.threads[t].op.pc.Release? || s.threads[t].op.pc.Finish? || s.threads[t].op.pc.Swept?
    ensures StaysOut(SweepStep(s, t), t)
  {
  }

  lemma OpClaimsNothing(s: State, t: nat, fail: bool, c: nat, since: nat, p: Ptr)
    requires Ready(s, t) && OwnOK(s, t) && Busying(s, t) && !InCall(s.threads[t].call) && !s.threads[t].op.Sweeping?
    requires t < |OpStep(s, t, fail).threads|
    ensures !ThreadClaims(OpStep(s, t, fail), t, c, since, p)
  {
  }

  lemma RunClaim(s: State, t: nat, fail: bool, c: nat, since: nat, p: Ptr)
    requires Inv(s) && Enabled(s, Run(t, fail)) && t < |Apply(s, Run(t, fail)).threads|
    requires ThreadClaims(Apply(s, Run(t, fail)), t, c, since, p)
    ensures Source(s, c, since, p)
  {
    Unfold(s, t);
    if InCall(s.threads[t].call) {
      CallKeepsOp(s, t);
      if OpClaims(s.threads[t].op, c, since, p) { assert ThreadClaims(s, t, c, since, p); } else { CallClaim(s, t, c, since, p); }
    } else if s.threads[t].op.Sweeping? {
      HelpClaim(s, t, c, since, p);
    } else {
      OpClaimsNothing(s, t, fail, c, since, p);
    }
  }

  lemma BeginClaim(s: State, a: Action, t: nat, c: nat, since: nat, p: Ptr)
    requires Inv(s) && Enabled(s, a) && !a.Run? && Actor(a) == t && t < |Apply(s, a).threads|
    requires ThreadClaims(Apply(s, a), t, c, since, p)
    ensures Source(s, c, since, p)
  {
    if a.BeginInto? && s.guards[a.g].debt.At? {
      assert GuardClaims(s, a.g, c, since, p);
    } else {
      BeginClaimsNothing(s, a, t, c, since, p);
    }
  }

  lemma BeginClaimsNothing(s: State, a: Action, t: nat, c: nat, since: nat, p: Ptr)
    requires Enabled(s, a) && !a.Run? && Actor(a) == t && t < |Apply(s, a).threads|
    requires a.BeginInto? ==> !s.guards[a.g].debt.At?
    ensures !ThreadClaims(Apply(s, a), t, c, since, p)
  {
  }

  lemma ThreadClaimStep(s: State, a: Action, t: nat, c: nat, since: nat, p: Ptr)
    requires Inv(s) && Enabled(s, a) && t < |Apply(s, a).threads| && ThreadClaims(Apply(s, a), t, c, since, p)
    ensures Source(s, c, since, p)
  {
    if t >= |s.threads| {
      NoNewThreads(s, a);
    } else if Actor(a) != t {
      Others(s, a, t);
      if OpClaims(s.threads[t].op, c, since, p) { assert ThreadClaims(s, t, c, since, p); } else { OtherCall(s, a, t, c, since, p); }
    } else if a.Run? {
      RunClaim(s, t, a.fail, c, since, p);
    } else {
      BeginClaim(s, a, t, c, since, p);
    }
  }

  lemma NoNewThreads(s: State, a: Action)
    requires Inv(s) && Enabled(s, a)
    ensures a.Spawn? || |Apply(s, a).threads| == |s.threads|
  {
    if a.Run? {
      Unfold(s, a.t);
      if InCall(s.threads[a.t].call) { CallCount(s, a.t); } else if s.threads[a.t].op.Sweeping? { SweepCount(s, a.t); } else { OpCount(s, a.t, a.fail); }
    }
  }

  lemma CallCount(s: State, t: nat)
    requires Ready(s, t) && InCall(s.threads[t].call)
    ensures |CallStep(s, t).threads| == |s.threads|
  {
    if HasDebt(s.threads[t].call) { assert NodeShape(s, s.guards[s.threads[t].call.g].debt.node); }
  }

  lemma SweepCount(s: State, t: nat)
    requires Ready(s, t) && s.threads[t].op.Sweeping? && (s.threads[t].op.pc.HLoad? ==> s.threads[t].call.Done?)
    ensures |SweepStep(s, t).threads| == |s.threads|
  {
    if s.threads[t].op.pc.Pay? { assert NodeShape(s, s.threads[t].op.pc.n); }
  }

  lemma OpCount(s: State, t: nat, fail: bool)
    requires Ready(s, t) && Busying(s, t) && !InCall(s.threads[t].call) && !s.threads[t].op.Sweeping?
    ensures |OpStep(s, t, fail).threads| == |s.threads|
  {
  }

  // ---------------------------------------------------------------------------------------------
  // Guards

  /** The calls that confirm their guard. */
  predicate Confirming(c: Call) { c.LConfirm? || c.LPay? || c.FConf? || c.FPay? || c.FDec? }

  predicate SameAnswer(a: Guard, b: Guard) { Returned(a) && a.ptr == b.ptr && a.src == b.src }

  lemma CallGuard(s: State, t: nat, g: nat)
    requires Ready(s, t) && ThreadOK(s, t) && InCall(s.threads[t].call) && g < |CallStep(s, t).guards| && Returned(CallStep(s, t).guards[g])
    requires Confirming(s.threads[t].call) ==> s.threads[t].call.g != g
    ensures g < |s.guards| && SameAnswer(s.guards[g], CallStep(s, t).guards[g])
  {
    if Paying(s.threads[t].call) { PayingGuard(s, t, g); }
  }

  lemma PayingGuard(s: State, t: nat, g: nat)
    requires Ready(s, t) && CallOK(s, t) && Paying(s.threads[t].call) && g < |CallStep(s, t).guards| && Returned(CallStep(s, t).guards[g])
    requires Confirming(s.threads[t].call) ==> s.threads[t].call.g != g
    ensures g < |s.guards| && SameAnswer(s.guards[g], CallStep(s, t).guards[g])
  {
    assert NodeShape(s, s.guards[s.threads[t].call.g].debt.node);
    if s.threads[t].call.LPay? || s.threads[t].call.FPay? { UnusedGuard(s, t, g); }
  }

  lemma UnusedGuard(s: State, t: nat, g: nat)
    requires Ready(s, t) && CallOK(s, t) && (s.threads[t].call.LPay? || s.threads[t].call.FPay?) && s.threads[t].call.g != g
    requires g < |CallStep(s, t).guards| && Returned(CallStep(s, t).guards[g])
    ensures g < |s.guards| && SameAnswer(s.guards[g], CallStep(s, t).guards[g])
  {
    assert NodeShape(s, s.guards[s.threads[t].call.g].debt.node);
  }

  lemma PaidGuard(s: State, t: nat)
    requires Ready(s, t) && ThreadOK(s, t) && s.threads[t].call.LPay? && GuardOK(s, s.threads[t].call.g)
    requires s.threads[t].call.g < |CallStep(s, t).guards| && Returned(CallStep(s, t).guards[s.threads[t].call.g])
    ensures var gd := CallStep(s, t).guards[s.threads[t].call.g]; PaidExit(s, t, gd.src, 0, gd.ptr)
  {
    assert NodeShape(s, s.guards[s.threads[t].call.g].debt.node);
  }

  lemma ConfirmedGuard(s: State, t: nat)
    requires Ready(s, t) && ThreadOK(s, t) && (s.threads[t].call.LConfirm? || s.threads[t].call.FConf?)
    requires s.threads[t].call.g < |CallStep(s, t).guards| && Returned(CallStep(s, t).guards[s.threads[t].call.g])
    ensures var gd := CallStep(s, t).guards[s.threads[t].call.g];
      ThreadClaims(s, t, gd.src, 0, gd.ptr) || Root(s, gd.src, 0, gd.ptr)
  {
  }

  lemma HelpedGuard(s: State, t: nat)
    requires Ready(s, t) && ThreadOK(s, t) && (s.threads[t].call.FPay? || s.threads[t].call.FDec?)
    requires s.threads[t].call.g < |CallStep(s, t).guards| && Returned(CallStep(s, t).guards[s.threads[t].call.g])
    ensures var gd := CallStep(s, t).guards[s.threads[t].call.g]; ThreadClaims(s, t, gd.src, 0, gd.ptr)
  {
    if s.threads[t].call.FPay? { assert NodeShape(s, s.guards[s.threads[t].call.g].debt.node); }
  }

  lemma CallGuardClaim(s: State, t: nat, g: nat)
    requires Inv(s) && Ready(s, t) && InCall(s.threads[t].call) && g < |CallStep(s, t).guards| && Returned(CallStep(s, t).guards[g])
    ensures var gd := CallStep(s, t).guards[g]; Source(s, gd.src, 0, gd.ptr)
  {
    Unfold(s, t);
    var c := s.threads[t].call;
    if Confirming(c) && c.g == g {
      if c.LPay? { PaidGuard(s, t); } else if c.LConfirm? || c.FConf? { ConfirmedGuard(s, t); } else { HelpedGuard(s, t); }
    } else {
      CallGuard(s, t, g);
      var gd := CallStep(s, t).guards[g];
      assert GuardClaims(s, g, gd.src, 0, gd.ptr);
    }
  }

  lemma SweepGuard(s: State, t: nat, g: nat)
    requires Ready(s, t) && OpOK(s, t) && s.threads[t].op.Sweeping? && (s.threads[t].op.pc.HLoad? ==> s.threads[t].call.Done?)
    requires g < |SweepStep(s, t).guards| && Returned(SweepStep(s, t).guards[g])
    ensures g < |s.guards| && SameAnswer(s.guards[g], SweepStep(s, t).guards[g])
  {
    if s.threads[t].op.pc.Pay? { assert NodeShape(s, s.threads[t].op.pc.n); }
  }

  lemma OpGuard(s: State, t: nat, fail: bool, g: nat)
    requires Ready(s, t) && CallOK(s, t) && OpOK(s, t) && Busying(s, t) && !InCall(s.threads[t].call) && !s.threads[t].op.Sweeping?
    requires g < |OpStep(s, t, fail).guards| && Returned(OpStep(s, t, fail).guards[g])
    ensures g < |s.guards| && SameAnswer(s.guards[g], OpStep(s, t, fail).guards[g])
  {
    if s.threads[t].op.Loading? || s.threads[t].op.CKeep? { ReturnGuard(s, t, fail, g); }
  }

  lemma ReturnGuard(s: State, t: nat, fail: bool, g: nat)
    requires Ready(s, t) && CallOK(s, t) && OpOK(s, t) && Busying(s, t) && !InCall(s.threads[t].call)
    requires s.threads[t].op.Loading? || s.threads[t].op.CKeep?
    requires g < |OpStep(s, t, fail).guards| && Returned(OpStep(s, t, fail).guards[g])
    ensures g < |s.guards| && SameAnswer(s.guards[g], OpStep(s, t, fail).guards[g])
  {
  }

  lemma GuardClaimStep(s: State, a: Action, g: nat)
    requires Inv(s) && Enabled(s, a) && g < |Apply(s, a).guards| && Returned(Apply(s, a).guards[g])
    ensures var gd := Apply(s, a).guards[g]; Source(s, gd.src, 0, gd.ptr)
  {
    var gd := Apply(s, a).guards[g];
    if a.Run? && InCall(s.threads[a.t].call) {
      Unfold(s, a.t);
      CallGuardClaim(s, a.t, g);
    } else {
      if a.Run? {
        Unfold(s, a.t);
        if s.threads[a.t].op.Sweeping? { SweepGuard(s, a.t, g); } else { OpGuard(s, a.t, a.fail, g); }
      }
      assert GuardClaims(s, g, gd.src, 0, gd.ptr);
    }
  }

  /** Every claim is an older one, or the cell holds the pointer now, or a debt on it was paid by
      somebody else. */
  lemma ClaimStep(s: State, a: Action, c: nat, since: nat, p: Ptr)
    requires Inv(s) && Enabled(s, a) && Claimed(Apply(s, a), c, since, p)
    ensures Source(s, c, since, p)
  {
    var s' := Apply(s, a);
    if t :| 0 <= t < |s'.threads| && ThreadClaims(s', t, c, since, p) {
      ThreadClaimStep(s, a, t, c, since, p);
    } else {
      var g :| 0 <= g < |s'.guards| && GuardClaims(s', g, c, since, p);
      GuardClaimStep(s, a, g);
    }
  }
}
