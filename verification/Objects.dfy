/**
 Which object a load returns, when addresses are reused.

 An object is created when the count of its address rises from zero, and lives until the count is zero
 again.  Two moments see the same object at an address when it has lived from one to the other.
 */
module Objects {
  import opened Protocol
  import opened Steps
  import opened Invariant
  import opened Counting
  import opened Moves
  import opened CallProofs
  import opened SweepProofs
  import opened UserProofs
  import opened Preservation
  import opened Theorems
  import opened Runs
  import opened Progress
  import opened Sweeps
  import opened Writes

  // ---------------------------------------------------------------------------------------------
  // Identity

  /** Between `a` and `b` an object is created at address `p`. */
  predicate Births(a: State, b: State, p: Ptr) {
    a.refs[p] == 0 && b.refs[p] > 0
  }

  /** How many objects have been created at `p` by moment `k`: the identity of the one that lives there. */
  ghost function Born(run: seq<State>, k: nat, p: Ptr): nat
    requires k < |run|
  {
    if k == 0 then 0 else Born(run, k - 1, p) + (if Births(run[k - 1], run[k], p) then 1 else 0)
  }

  /** One object lives at `p` from `k` to `m`. */
  ghost predicate Lasts(run: seq<State>, k: nat, m: nat, p: Ptr) {
    k <= m < |run| && forall x :: k <= x <= m ==> run[x].refs[p] > 0
  }

  lemma {:induction false} BornGrows(run: seq<State>, k: nat, m: nat, p: Ptr)
    requires k <= m < |run|
    ensures Born(run, k, p) <= Born(run, m, p)
    ensures Lasts(run, k, m, p) ==> Born(run, k, p) == Born(run, m, p)
    ensures run[k].refs[p] == 0 && run[m].refs[p] > 0 ==> Born(run, k, p) < Born(run, m, p)
    decreases m
  {
    if k < m {
      BornGrows(run, k, m - 1, p);
      if Lasts(run, k, m, p) { assert Lasts(run, k, m - 1, p) && run[m - 1].refs[p] > 0; }
    }
  }

  /** The two notions of identity agree. */
  lemma SameObject(run: seq<State>, k: nat, m: nat, p: Ptr)
    requires k <= m < |run| && run[k].refs[p] > 0 && run[m].refs[p] > 0
    ensures Lasts(run, k, m, p) <==> Born(run, k, p) == Born(run, m, p)
  {
    BornGrows(run, k, m, p);
    if !Lasts(run, k, m, p) {
      var x :| k <= x <= m && run[x].refs[p] == 0;
      BornGrows(run, k, x, p);
      BornGrows(run, x, m, p);
    }
  }

  /** Only the creation of an object makes a dead address live again. */
  lemma BirthsAreCreations(s: State, a: Action, p: Ptr)
    requires Inv(s) && Enabled(s, a)
    ensures Births(s, Apply(s, a), p) <==> a == NewObject(p)
  {
    match a
    case Run(t, fail) => RunCreatesNothing(s, t, fail, p);
    case CloneGuard(g) => HeldAlive(s, g);
    case CloneHandle(q) => HandleAlive(s, q);
    case _ =>
  }

  lemma RunCreatesNothing(s: State, t: nat, fail: bool, p: Ptr)
    requires Inv(s) && Enabled(s, Run(t, fail))
    ensures !Births(s, Apply(s, Run(t, fail)), p)
  {
    Unfold(s, t);
    CountedIsAlive(s, t);
    if InCall(s.threads[t].call) {
      CallCounts(s, t, p);
    } else if s.threads[t].op.Sweeping? {
      SweepCounts(s, t, p);
    } else {
      OpCounts(s, t, fail, p);
    }
  }

  // ---------------------------------------------------------------------------------------------
  // Claims: the pointers that somebody holds as the answer of a load

  /** The answer that a call has, if it has one: its candidate while its generation stands, the
      replacement that was put in its place, or what it is about to return. */
  predicate CallClaims(s: State, th: Thread, c: nat, since: nat, p: Ptr) {
    var own := 0 <= th.node < |s.nodes|;
    match th.call
    case FRead(ask, _) => ask.cell == c && since <= ask.since && own && s.nodes[th.node].control.Repl? && s.nodes[th.node].control.val == p
    case FSlot(ask, _, q) => ask.cell == c && since <= ask.since && own && Stands(s.nodes[th.node].control, q, p)
    case FConf(ask, _, q, _) => ask.cell == c && since <= ask.since && own && Stands(s.nodes[th.node].control, q, p)
    case FEnv(ask, _, _, _, r) => ask.cell == c && since <= ask.since && r == p
    case FOffer(ask, _, _, _, r) => ask.cell == c && since <= ask.since && r == p
    case FPay(ask, _, _, r) => ask.cell == c && since <= ask.since && r == p
    case FDec(ask, _, _, r) => ask.cell == c && since <= ask.since && r == p
    case InInc(ask, q, _) => ask.cell == c && since <= ask.since && q == p
    case InPay(ask, q, _) => ask.cell == c && since <= ask.since && q == p
    case InDec(ask, q, _) => ask.cell == c && since <= ask.since && q == p
    case Done(ask, g) => ask.cell == c && since <= ask.since && g < |s.guards| && s.guards[g].ptr == p
    case _ => false
  }

  predicate Stands(k: Control, candidate: Ptr, p: Ptr) {
    match k
    case Gen(_, _) => candidate == p
    case Repl(_, v) => v == p
    case Idle => false
  }

  /** A helper is about to pass `p` on. */
  predicate OpClaims(op: Op, c: nat, since: nat, p: Ptr) {
    op.Sweeping? && HasReplacement(op.pc) && op.job.cell == c && since <= op.pc.o.since && op.pc.r == p
  }

  predicate ThreadClaims(s: State, t: nat, c: nat, since: nat, p: Ptr)
    requires t < |s.threads|
  {
    CallClaims(s, s.threads[t], c, since, p) || OpClaims(s.threads[t].op, c, since, p)
  }

  predicate Returned(gd: Guard) { gd.status.Held? || gd.status.Loose? }

  predicate GuardClaims(s: State, g: nat, c: nat, since: nat, p: Ptr)
    requires g < |s.guards|
  {
    Returned(s.guards[g]) && s.guards[g].src == c && since == 0 && s.guards[g].ptr == p
  }

  ghost predicate Claimed(s: State, c: nat, since: nat, p: Ptr) {
    || (exists t :: 0 <= t < |s.threads| && ThreadClaims(s, t, c, since, p))
    || (exists g :: 0 <= g < |s.guards| && GuardClaims(s, g, c, since, p))
  }

  /** The cell holds `p`, at version `since` or later. */
  ghost predicate Root(s: State, c: nat, since: nat, p: Ptr) {
    Holds(s, c, p) && since <= Now(s, c)
  }

  /** Thread `u` loads cell `c`, has found it changed, and its debt on `p` has been paid by somebody else. */
  ghost predicate PaidExit(s: State, u: nat, c: nat, since: nat, p: Ptr) {
    && u < |s.threads| && c < |s.cells|
    && s.threads[u].call.LPay? && s.threads[u].call.ask.cell == c && since <= s.threads[u].call.ask.since
    && s.threads[u].call.p == p && since < Now(s, c)
    && s.threads[u].call.g < |s.guards| && s.guards[s.threads[u].call.g].paid && !s.guards[s.threads[u].call.g].status.Gone?
    && s.guards[s.threads[u].call.g].ptr == p
  }

  ghost predicate PaidRoot(s: State, c: nat, since: nat, p: Ptr) {
    exists u :: 0 <= u < |s.threads| && PaidExit(s, u, c, since, p)
  }

  /** Where a claim can come from. */
  ghost predicate Source(s: State, c: nat, since: nat, p: Ptr) {
    Claimed(s, c, since, p) || Root(s, c, since, p) || PaidRoot(s, c, since, p)
  }

  // ---------------------------------------------------------------------------------------------
  // A claimed object is alive

  lemma {:induction false} NodePart(xs: seq<Node>, i: nat, p: Ptr)
    requires i < |xs|
    ensures NodeHolds(xs[i], p) <= SumNodes(xs, p)
  {
    if i < |xs| - 1 { NodePart(xs[..|xs| - 1], i, p); }
  }

  lemma ReplyAlive(s: State, n: nat)
    requires Balanced(s) && n < |s.nodes| && s.nodes[n].control.Repl?
    ensures s.refs[s.nodes[n].control.val] > 0
  {
    var p := s.nodes[n].control.val;
    NodePart(s.nodes, n, p);
    assert s.refs[p] == Owned(s, p);
  }

  lemma CandidateAlive(s: State, t: nat)
    requires Balanced(s) && t < |s.threads| && OwnOK(s, t) && CandOK(s, t) && (s.threads[t].call.FSlot? || s.threads[t].call.FConf?)
    requires s.nodes[s.threads[t].node].control.Gen?
    ensures s.refs[s.threads[t].call.p] > 0
  {
    var th := s.threads[t];
    if Holds(s, th.call.ask.cell, th.call.p) {
      CellAlive(s, th.call.ask.cell);
    } else {
      var w :| 0 <= w < |s.threads| && PreHelp(s.threads[w].op, th.call.ask.cell, th.call.p, th.node);
      ThreadAlive(s, w, th.call.p);
    }
  }

  lemma CallClaimAlive(s: State, t: nat, c: nat, since: nat, p: Ptr)
    requires Inv(s) && t < |s.threads| && CallClaims(s, s.threads[t], c, since, p)
    ensures s.refs[p] > 0
  {
    assert ThreadOK(s, t);
    var th := s.threads[t];
    if Published(th.call) {
      if s.nodes[th.node].control.Repl? { ReplyAlive(s, th.node); } else { CandidateAlive(s, t); }
    } else if ThreadOwns(th, p) > 0 {
      ThreadAlive(s, t, p);
    } else {
      HeldAlive(s, th.call.g);
    }
  }

  lemma ClaimAlive(s: State, c: nat, since: nat, p: Ptr)
    requires Inv(s) && Claimed(s, c, since, p)
    ensures s.refs[p] > 0
  {
    if t :| 0 <= t < |s.threads| && ThreadClaims(s, t, c, since, p) {
      if CallClaims(s, s.threads[t], c, since, p) {
        CallClaimAlive(s, t, c, since, p);
      } else {
        ThreadAlive(s, t, p);
      }
    } else {
      var g :| 0 <= g < |s.guards| && GuardClaims(s, g, c, since, p);
      HeldAlive(s, g);
    }
  }

  lemma SourceAlive(s: State, c: nat, since: nat, p: Ptr)
    requires Inv(s) && Source(s, c, since, p)
    ensures s.refs[p] > 0
  {
    if Claimed(s, c, since, p) {
      ClaimAlive(s, c, since, p);
    } else if Root(s, c, since, p) {
      CellAlive(s, c);
    } else {
      var u :| 0 <= u < |s.threads| && PaidExit(s, u, c, since, p);
      PaidAlive(s, s.threads[u].call.g);
    }
  }
}
