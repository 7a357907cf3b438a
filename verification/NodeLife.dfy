/**
 The life of one node with the three accesses of `check_cooldown` kept apart: any number of threads that
 claim the node, give it up, or reserve it as writers.
 */
module NodeLife {

  datatype Use = Unused | Used(owner: nat) | Cooldown

  /** A constructor names the access that comes next.  `seen` (annotation) is the number of the cooldown
      that the first access of the check has found. */
  datatype Pc =
    | Away
      // Node::get on this node: check_cooldown and the claim
    | CheckUse
    | CheckWriters(seen: nat)
    | CheckEnd(seen: nat)
    | Claim
    | Owner                                  // the node is this thread's
      // Node::start_cooldown
    | XReserve
    | XSwap
    | XRelease
      // a writer in pay_all
    | WReserve
    | WLook                                  // load the control
    | Observing                              // it has seen a generation there
    | Passing                                // it has not

  datatype State = State(
    use: Use,
    writers: nat,
    epoch: nat,                              // annotation: how many cooldowns have begun
    threads: seq<Pc>)

  datatype Action =
    | Run(t: nat, busy: bool)                // next access of t; `busy` says what a look at the control finds
    | Get(t: nat)
    | Exit(t: nat)
    | Write(t: nat)
    | Spawn

  function Put(s: State, t: nat, pc: Pc): State
    requires t < |s.threads|
  {
    s.(threads := s.threads[t := pc])
  }

  /** Only a node that somebody owns has a generation in its control. */
  function Access(s: State, t: nat, busy: bool): State
    requires t < |s.threads|
  {
    match s.threads[t]
    case Away => s
    case CheckUse => Put(s, t, if s.use.Cooldown? then CheckWriters(s.epoch) else Claim)
    case CheckWriters(e) => Put(s, t, if s.writers == 0 then CheckEnd(e) else Claim)
    case CheckEnd(e) => Put(s, t, Claim).(use := if s.use.Cooldown? then Unused else s.use)
    case Claim => if s.use.Unused? then Put(s, t, Owner).(use := Used(t)) else Put(s, t, Away)
    case Owner => s
    case XReserve => Put(s, t, XSwap).(writers := s.writers + 1)
    case XSwap => Put(s, t, XRelease).(use := Cooldown, epoch := s.epoch + 1)
    case XRelease => Put(s, t, Away).(writers := if s.writers > 0 then s.writers - 1 else 0)
    case WReserve => Put(s, t, WLook).(writers := s.writers + 1)
    case WLook => Put(s, t, if busy && s.use.Used? then Observing else Passing)
    case Observing => if busy then Put(s, t, WLook) else Put(s, t, Passing)
    case Passing => Put(s, t, Away).(writers := if s.writers > 0 then s.writers - 1 else 0)
  }

  predicate Enabled(s: State, a: Action) {
    match a
    case Run(t, _) => t < |s.threads|
    case Get(t) => t < |s.threads| && s.threads[t].Away?
    case Exit(t) => t < |s.threads| && s.threads[t].Owner?
    case Write(t) => t < |s.threads| && s.threads[t].Away?
    case Spawn => true
  }

  function Apply(s: State, a: Action): State
    requires Enabled(s, a)
  {
    match a
    case Run(t, busy) => Access(s, t, busy)
    case Get(t) => Put(s, t, CheckUse)
    case Exit(t) => Put(s, t, XReserve)
    case Write(t) => Put(s, t, WReserve)
    case Spawn => s.(threads := s.threads + [Away])
  }

  /** A thread has just published its node. */
  const Fresh := State(Used(0), 0, 0, [Owner])

  ghost predicate Next(s: State, s': State) {
    exists a :: Enabled(s, a) && s' == Apply(s, a)
  }

  ghost predicate StepAt(run: seq<State>, i: nat)
    requires i + 1 < |run|
  {
    Next(run[i], run[i + 1])
  }

  ghost predicate IsRun(run: seq<State>) {
    |run| > 0 && run[0] == Fresh && forall i: nat :: i + 1 < |run| ==> StepAt(run, i)
  }

  // ---------------------------------------------------------------------------------------------
  // Invariant

  predicate Owns(pc: Pc) { pc.Owner? || pc.XReserve? || pc.XSwap? }

  predicate Inside(pc: Pc) { pc.XSwap? || pc.XRelease? || pc.WLook? || pc.Observing? || pc.Passing? }

  function Insiders(xs: seq<Pc>): nat {
    if |xs| == 0 then 0 else Insiders(xs[..|xs| - 1]) + (if Inside(xs[|xs| - 1]) then 1 else 0)
  }

  ghost predicate Observed(s: State) {
    exists h :: 0 <= h < |s.threads| && s.threads[h].Observing?
  }

  predicate ThreadOK(s: State, t: nat)
    requires t < |s.threads|
  {
    && (Owns(s.threads[t]) ==> s.use == Used(t))
    && (s.threads[t].CheckWriters? ==> s.threads[t].seen <= s.epoch)
    && (s.threads[t].CheckEnd? ==> s.threads[t].seen <= s.epoch)
  }

  ghost predicate Inv(s: State) {
    && (forall t :: 0 <= t < |s.threads| ==> ThreadOK(s, t))
    && (s.use.Used? ==> s.use.owner < |s.threads| && Owns(s.threads[s.use.owner]))
    && s.writers == Insiders(s.threads)
    && (forall t :: 0 <= t < |s.threads| ==> SafeEnd(s, t))
  }

  /** A check that is about to end the very cooldown that it has seen leaves no helper behind. */
  ghost predicate SafeEnd(s: State, t: nat)
    requires t < |s.threads|
  {
    s.threads[t].CheckEnd? && s.threads[t].seen == s.epoch && s.use.Cooldown? ==> !Observed(s)
  }

  lemma {:induction false} InsidersUpdate(xs: seq<Pc>, t: nat, pc: Pc)
    requires t < |xs|
    ensures Insiders(xs[t := pc]) + (if Inside(xs[t]) then 1 else 0) == Insiders(xs) + (if Inside(pc) then 1 else 0)
    decreases |xs|
  {
    var k := |xs| - 1;
    if t < k {
      assert xs[t := pc][..k] == xs[..k][t := pc];
      InsidersUpdate(xs[..k], t, pc);
    } else {
      assert xs[t := pc][..k] == xs[..k];
    }
  }

  lemma {:induction false} InsiderCounts(xs: seq<Pc>, t: nat)
    requires t < |xs| && Inside(xs[t])
    ensures Insiders(xs) > 0
    decreases |xs|
  {
    if t < |xs| - 1 { InsiderCounts(xs[..|xs| - 1], t); }
  }

  /** With no writer counted, no helper is there. */
  lemma NobodyObserves(s: State)
    requires s.writers == Insiders(s.threads) && s.writers == 0
    ensures !Observed(s)
  {
    if h :| 0 <= h < |s.threads| && s.threads[h].Observing? { InsiderCounts(s.threads, h); }
  }

  lemma AccessCounts(s: State, t: nat, busy: bool)
    requires t < |s.threads| && s.writers == Insiders(s.threads)
    ensures Access(s, t, busy).writers == Insiders(Access(s, t, busy).threads)
  {
    var s' := Access(s, t, busy);
    assert s'.threads == s.threads[t := s'.threads[t]];
    InsidersUpdate(s.threads, t, s'.threads[t]);
    if Inside(s.threads[t]) { InsiderCounts(s.threads, t); }
  }

  lemma AccessOK(s: State, t: nat, busy: bool)
    requires Inv(s) && t < |s.threads|
    ensures Inv(Access(s, t, busy))
  {
    var s' := Access(s, t, busy);
    assert ThreadOK(s, t);
    AccessCounts(s, t, busy);
    forall u | 0 <= u < |s'.threads| ensures ThreadOK(s', u) { ThreadStep(s, t, busy, u); }
    forall u | 0 <= u < |s'.threads| ensures SafeEnd(s', u) { SafeEndStep(s, t, busy, u); }
  }

  lemma ThreadStep(s: State, t: nat, busy: bool, u: nat)
    requires t < |s.threads| && u < |s.threads| && ThreadOK(s, t) && ThreadOK(s, u)
    ensures ThreadOK(Access(s, t, busy), u)
  {
  }

  lemma SafeEndStep(s: State, t: nat, busy: bool, u: nat)
    requires Inv(s) && t < |s.threads| && u < |s.threads|
    ensures SafeEnd(Access(s, t, busy), u)
  {
    var s' := Access(s, t, busy);
    assert SafeEnd(s, u) && ThreadOK(s, u) && ThreadOK(s, t);
    if s'.threads[u].CheckEnd? && s'.threads[u].seen == s'.epoch && s'.use.Cooldown? {
      if s.threads[t].CheckWriters? && u == t { NobodyObserves(s); }
      if h :| 0 <= h < |s'.threads| && s'.threads[h].Observing? { assert s.threads[h].Observing?; }
    }
  }

  lemma ActionOK(s: State, a: Action)
    requires Inv(s) && Enabled(s, a)
    ensures Inv(Apply(s, a))
  {
    if a.Run? {
      AccessOK(s, a.t, a.busy);
    } else {
      BeginOK(s, Apply(s, a), a);
    }
  }

  lemma BeginOK(s: State, s': State, a: Action)
    requires Inv(s) && Enabled(s, a) && !a.Run? && s' == Apply(s, a)
    ensures Inv(s')
  {
    BeginCounts(s, a);
    forall u | 0 <= u < |s'.threads| ensures ThreadOK(s', u) && SafeEnd(s', u) { BeginThread(s, a, u); }
    if s.use.Used? { BeginOwner(s, a); }
  }

  lemma BeginOwner(s: State, a: Action)
    requires Enabled(s, a) && !a.Run? && s.use.Used? && s.use.owner < |s.threads| && Owns(s.threads[s.use.owner])
    ensures var s' := Apply(s, a); s'.use == s.use && s.use.owner < |s'.threads| && Owns(s'.threads[s.use.owner])
  {
  }

  lemma BeginCounts(s: State, a: Action)
    requires Enabled(s, a) && !a.Run?
    ensures Insiders(Apply(s, a).threads) == Insiders(s.threads) && Apply(s, a).writers == s.writers
  {
    var s' := Apply(s, a);
    if a.Spawn? { assert s'.threads[..|s.threads|] == s.threads; } else { InsidersUpdate(s.threads, a.t, s'.threads[a.t]); }
  }

  lemma BeginThread(s: State, a: Action, u: nat)
    requires Inv(s) && Enabled(s, a) && !a.Run? && u < |Apply(s, a).threads|
    ensures ThreadOK(Apply(s, a), u) && SafeEnd(Apply(s, a), u)
  {
    var s' := Apply(s, a);
    if u < |s.threads| {
      assert ThreadOK(s, u) && SafeEnd(s, u);
      if h :| 0 <= h < |s'.threads| && s'.threads[h].Observing? { assert s.threads[h].Observing?; }
    }
  }

  lemma {:induction false} RunOK(run: seq<State>, k: nat)
    requires IsRun(run) && k < |run|
    ensures Inv(run[k])
    decreases k
  {
    if k == 0 {
      assert Insiders([Owner]) == 0 by { assert [Owner][..0] == []; }
    } else {
      RunOK(run, k - 1);
      assert StepAt(run, k - 1);
      var a :| Enabled(run[k - 1], a) && run[k] == Apply(run[k - 1], a);
      ActionOK(run[k - 1], a);
    }
  }

  // ---------------------------------------------------------------------------------------------
  // Exclusivity

  /** However the accesses interleave, a node has at most one owner; and `start_cooldown` finds it in use. */
  lemma OneOwner(run: seq<State>, k: nat, t: nat, u: nat)
    requires IsRun(run) && k < |run| && t < |run[k].threads| && u < |run[k].threads|
    requires Owns(run[k].threads[t]) && Owns(run[k].threads[u])
    ensures t == u && run[k].use == Used(t)
  {
    RunOK(run, k);
    assert ThreadOK(run[k], t) && ThreadOK(run[k], u);
  }

  // ---------------------------------------------------------------------------------------------
  // Reservations

  /** The action ends a cooldown other than the one that its check has seen. */
  predicate EndsLaterCooldown(s: State, a: Action) {
    a.Run? && a.t < |s.threads| && s.threads[a.t].CheckEnd? && s.use.Cooldown? && s.threads[a.t].seen != s.epoch
  }

  /** While a helper observes a node that is not unused, the next action makes it unused if and only if it is
      the compare-exchange of a check, in a later cooldown than the one this check has seen. */
  lemma HelperLosesNodeIff(run: seq<State>, k: nat, a: Action)
    requires IsRun(run) && k < |run| && Enabled(run[k], a) && Observed(run[k]) && !run[k].use.Unused?
    ensures Apply(run[k], a).use.Unused? <==> EndsLaterCooldown(run[k], a)
  {
    RunOK(run, k);
    if a.Run? { assert SafeEnd(run[k], a.t); }
  }

  /** So where every check ends the cooldown that it has seen, a helper keeps the node from being claimed. */
  lemma {:induction false} HelperKeepsNode(run: seq<State>, i: nat, j: nat)
    requires IsRun(run) && i <= j < |run| && !run[i].use.Unused?
    requires forall m :: i <= m <= j ==> Observed(run[m])
    requires forall m, a :: i <= m < j && Enabled(run[m], a) && run[m + 1] == Apply(run[m], a) ==> !EndsLaterCooldown(run[m], a)
    ensures !run[j].use.Unused?
    decreases j
  {
    if i < j {
      HelperKeepsNode(run, i, j - 1);
      assert StepAt(run, j - 1);
      var a :| Enabled(run[j - 1], a) && run[j] == Apply(run[j - 1], a);
      HelperLosesNodeIff(run, j - 1, a);
    }
  }

  function Last(run: seq<State>): State
    requires |run| > 0
  {
    run[|run| - 1]
  }

  lemma Go(run: seq<State>, a: Action) returns (longer: seq<State>)
    requires IsRun(run) && Enabled(Last(run), a)
    ensures IsRun(longer) && Last(longer) == Apply(Last(run), a)
  {
    longer := run + [Apply(Last(run), a)];
    forall i: nat | i + 1 < |longer| ensures StepAt(longer, i) {
      if i + 1 < |run| { assert StepAt(run, i); } else { assert Enabled(longer[i], a) && longer[i + 1] == Apply(longer[i], a); }
    }
  }

  /** Thread `t` gives the node up. */
  lemma GiveUp(run: seq<State>, t: nat) returns (longer: seq<State>)
    requires IsRun(run) && t < |Last(run).threads| && Last(run).threads[t].Owner?
    ensures IsRun(longer)
    ensures Last(longer) == Put(Last(run), t, Away).(use := Cooldown, epoch := Last(run).epoch + 1)
  {
    longer := Go(run, Exit(t));
    longer := Go(longer, Run(t, false));
    longer := Go(longer, Run(t, false));
    longer := Go(longer, Run(t, false));
  }

  /** Thread `t` checks the node while it is in cooldown and nobody is inside, and is about to end it. */
  lemma CheckAlmost(run: seq<State>, t: nat) returns (longer: seq<State>)
    requires IsRun(run) && t < |Last(run).threads| && Last(run).threads[t].Away? && Last(run).use.Cooldown? && Last(run).writers == 0
    ensures IsRun(longer) && Last(longer) == Put(Last(run), t, CheckEnd(Last(run).epoch))
  {
    longer := Go(run, Get(t));
    longer := Go(longer, Run(t, false));
    longer := Go(longer, Run(t, false));
  }

  /** The three accesses of a check can take the node away from under a helper: thread 1 looks at the first
      cooldown, thread 0 ends it, claims the node and gives it up again while thread 2 observes it, and then
      thread 1 ends the second cooldown. */
  lemma HelperCanLoseNode() returns (run: seq<State>)
    ensures IsRun(run) && Observed(Last(run)) && Last(run).use.Unused? && Last(run).writers > 0
  {
    run := [Fresh];
    run := Go(run, Spawn);
    run := Go(run, Spawn);
    run := GiveUp(run, 0);
    run := CheckAlmost(run, 1);
    run := CheckAlmost(run, 0);
    run := Go(run, Run(0, false));
    run := Go(run, Run(0, false));
    assert Last(run) == State(Used(0), 0, 1, [Owner, CheckEnd(1), Away]);
    run := Go(run, Write(2));
    run := Go(run, Run(2, false));
    run := Go(run, Run(2, true));
    run := GiveUp(run, 0);
    assert Last(run) == State(Cooldown, 1, 2, [Away, CheckEnd(1), Observing]);
    run := Go(run, Run(1, false));
    assert Last(run).threads[2].Observing?;
  }
}
