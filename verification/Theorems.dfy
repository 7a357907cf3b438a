/** What the invariant means: the guarantees in every reachable state. */
module Theorems {
  import opened Protocol
  import opened Steps
  import opened Invariant
  import opened Counting
  import opened Moves
  import opened CallProofs
  import opened SweepProofs
  import opened UserProofs
  import opened Preservation

  ghost predicate Reachable(s: State) {
    exists run, k :: IsRun(run) && 0 <= k < |run| && run[k] == s
  }

  lemma ReachableInv(s: State)
    requires Reachable(s)
    ensures Inv(s)
  {
    var run, k :| IsRun(run) && 0 <= k < |run| && run[k] == s;
    RunOK(run, k);
  }

  // ---------------------------------------------------------------------------------------------
  // Safety

  /** A sweeping writer that took `p` out keeps it alive. */
  lemma CoverAlive(s: State, c: nat, p: Ptr, n: nat, j: nat)
    requires Balanced(s) && Covered(s, c, p, n, j)
    ensures s.refs[p] > 0
  {
    var w :| 0 <= w < |s.threads| && Covers(s.threads[w].op, c, p, n, j);
    ThreadAlive(s, w, p);
  }

  lemma CellAlive(s: State, c: nat)
    requires Balanced(s) && IsLive(s, c)
    ensures s.refs[s.cells[c].val] > 0
  {
    CellPart(s.cells, c, s.cells[c].val);
    assert s.refs[s.cells[c].val] == Owned(s, s.cells[c].val);
  }

  /** The object behind every guard that a load has returned is alive, whatever happened to the
      storage it came from. */
  lemma GuardAlive(s: State, g: nat)
    requires Reachable(s) && g < |s.guards| && (s.guards[g].status.Loose? || s.guards[g].status.Held?)
    ensures s.refs[s.guards[g].ptr] > 0
  {
    ReachableInv(s);
    HeldAlive(s, g);
  }

  lemma HeldAlive(s: State, g: nat)
    requires Inv(s) && g < |s.guards| && (s.guards[g].status.Loose? || s.guards[g].status.Held?)
    ensures s.refs[s.guards[g].ptr] > 0
  {
    var gd := s.guards[g];
    assert GuardOK(s, g);
    if gd.paid {
      PaidAlive(s, g);
    } else if Holds(s, gd.src, gd.ptr) {
      CellAlive(s, gd.src);
    } else {
      CoverAlive(s, gd.src, gd.ptr, gd.debt.node, gd.debt.slot);
    }
  }

  /** A confirmed debt that nobody has paid is still covered: its storage holds the pointer, or a writer
      that took it out of there has not tried this slot yet. */
  lemma DebtIsCovered(s: State, g: nat)
    requires Reachable(s) && g < |s.guards| && (s.guards[g].status.Loose? || s.guards[g].status.Held?)
    requires s.guards[g].debt.At? && !s.guards[g].paid
    ensures var gd := s.guards[g];
      && gd.debt.node < |s.nodes| && gd.debt.slot < |s.nodes[gd.debt.node].slots|
      && s.nodes[gd.debt.node].slots[gd.debt.slot] == Owes(gd.ptr, g)
      && (Holds(s, gd.src, gd.ptr) || Covered(s, gd.src, gd.ptr, gd.debt.node, gd.debt.slot))
  {
    ReachableInv(s);
    assert GuardOK(s, g);
  }

  /** While somebody holds a guard or a reference, its address is not given to a new object. */
  lemma AddressIsPinned(s: State, g: nat, p: Ptr)
    requires Reachable(s)
    requires s.handles[p] > 0 ||
      (g < |s.guards| && s.guards[g].ptr == p && (s.guards[g].status.Loose? || s.guards[g].status.Held?))
    ensures !Enabled(s, NewObject(p))
  {
    ReachableInv(s);
    if s.handles[p] > 0 { HandleAlive(s, p); } else { HeldAlive(s, g); }
  }

  /** Nobody waits for anybody: a thread in the middle of an operation can always make its next access. */
  lemma NeverStuck(s: State, t: nat)
    requires Reachable(s) && t < |s.threads| && !s.threads[t].op.Idle? && !s.threads[t].op.Exited?
    ensures Enabled(s, Run(t, false))
  {
    ReachableInv(s);
    InvShape(s);
    assert ThreadOK(s, t);
    Unblocked(s, t);
  }

  lemma Unblocked(s: State, t: nat)
    requires t < |s.threads| && OwnOK(s, t) && !s.threads[t].op.Idle? && !s.threads[t].op.Exited?
    ensures Busying(s, t)
  {
  }

  /** The object whose count the next access of thread `t` changes, if it changes one. */
  function Counts(s: State, t: nat): seq<Ptr>
    requires t < |s.threads| && ThreadShape(s, t)
  {
    var th := s.threads[t];
    match th.call
    case FDec(_, p, _, _) => [p]
    case InInc(_, p, _) => [p]
    case InDec(_, p, _) => [p]
    case DrDec(g) => [s.guards[g].ptr]
    case NoCall =>
      (match th.op
       case CKeep(_, nv, _) => [nv]
       case Sweeping(job, pc) =>
         (match pc
          case Prepay => [job.out]
          case PayInc(_, _) => [job.out]
          case Finish => [job.out]
          case HDrop(_, r, _) => [r]
          case Swept => if job.kind.KDrop? || job.kind.KCas? then [job.out] else []
          case _ => [])
       case _ => [])
    case _ => []
  }

  /** The next access of thread `t` takes a reference; otherwise, if it changes a count, it releases one. */
  predicate Raises(s: State, t: nat)
    requires t < |s.threads|
  {
    var th := s.threads[t];
    th.call.InInc? || (th.call.NoCall? && th.op.Sweeping? && (th.op.pc.Prepay? || th.op.pc.PayInc?))
  }

  /** How a step moves the count of `p`: by one if it is listed, and else not at all. */
  predicate MovesBy(a: nat, b: nat, listed: bool, up: bool) {
    if !listed then a == b else if up then b == a + 1 else b + 1 == a
  }

  lemma CallCounts(s: State, t: nat, p: Ptr)
    requires Ready(s, t) && InCall(s.threads[t].call)
    requires forall q :: q in Counts(s, t) ==> s.refs[q] > 0
    ensures MovesBy(s.refs[p], CallStep(s, t).refs[p], p in Counts(s, t), Raises(s, t))
  {
  }

  lemma SweepCounts(s: State, t: nat, p: Ptr)
    requires Ready(s, t) && s.threads[t].op.Sweeping? && (if s.threads[t].op.pc.HLoad? then s.threads[t].call.Done? else s.threads[t].call.NoCall?)
    requires forall q :: q in Counts(s, t) ==> s.refs[q] > 0
    ensures MovesBy(s.refs[p], SweepStep(s, t).refs[p], p in Counts(s, t), Raises(s, t))
  {
  }

  lemma OpCounts(s: State, t: nat, fail: bool, p: Ptr)
    requires Ready(s, t) && Busying(s, t) && !InCall(s.threads[t].call) && !s.threads[t].op.Sweeping?
    requires CallFits(s.threads[t].op, s.threads[t].call)
    requires forall q :: q in Counts(s, t) ==> s.refs[q] > 0
    ensures MovesBy(s.refs[p], OpStep(s, t, fail).refs[p], p in Counts(s, t), Raises(s, t))
  {
  }

  /** `Counts` is exact: the next access raises or lowers those counts by one, and changes no others. */
  lemma CountsExactly(s: State, t: nat, fail: bool, p: Ptr)
    requires Reachable(s) && t < |s.threads| && Enabled(s, Run(t, fail)) && ThreadShape(s, t)
    ensures MovesBy(s.refs[p], Apply(s, Run(t, fail)).refs[p], p in Counts(s, t), Raises(s, t))
  {
    NeverTouchesDead(s, t);
    ReachableInv(s);
    Unfold(s, t);
    if InCall(s.threads[t].call) {
      CallCounts(s, t, p);
    } else if s.threads[t].op.Sweeping? {
      SweepCounts(s, t, p);
    } else {
      OpCounts(s, t, fail, p);
    }
  }

  /** No access increments or decrements the count of an object that is already dead. */
  lemma NeverTouchesDead(s: State, t: nat)
    requires Reachable(s) && t < |s.threads|
    ensures ThreadShape(s, t)
    ensures forall p :: p in Counts(s, t) ==> s.refs[p] > 0
  {
    ReachableInv(s);
    CountedIsAlive(s, t);
  }

  lemma CountedIsAlive(s: State, t: nat)
    requires Inv(s) && t < |s.threads|
    ensures ThreadShape(s, t)
    ensures forall p :: p in Counts(s, t) ==> s.refs[p] > 0
  {
    Unfold(s, t);
    var th := s.threads[t];
    if HasGuard(th.call) {
      if th.call.InInc? { HeldAlive(s, th.call.g); }
      if th.call.FDec? || th.call.InDec? || th.call.DrDec? { PaidAlive(s, th.call.g); }
    }
    forall p | p in Counts(s, t) ensures s.refs[p] > 0 {
      if ThreadOwns(th, p) > 0 { ThreadAlive(s, t, p); }
    }
  }

  // ---------------------------------------------------------------------------------------------
  // Assertions of the source

  /** The assertions that the accesses of thread `t` make on the way never fail. */
  lemma AssertionsHold(s: State, t: nat)
    requires Reachable(s) && t < |s.threads|
    ensures var th := s.threads[t];
      // fast::Slots::get_debt and helping::Slots::confirm: the slot was NONE
      && (th.call.LPut? ==> 0 <= th.node < |s.nodes| && th.call.j < |s.nodes[th.node].slots| && s.nodes[th.node].slots[th.call.j].Free?)
      && (th.call.FSlot? ==> 0 <= th.node < |s.nodes| && |s.nodes[th.node].slots| == SLOTS && s.nodes[th.node].slots[HELPING].Free?)
      // helping::Slots::get_debt: the control was IDLE
      && (th.call.FCtrl? ==> 0 <= th.node < |s.nodes| && s.nodes[th.node].control == Control.Idle)
      // confirm: our generation, or a replacement
      && (th.call.FConf? ==>
            && 0 <= th.node < |s.nodes|
            && (s.nodes[th.node].control.Repl? || SameGen(s.nodes[th.node].control, th.gen)))
      // help: we are idle ourselves, and never help ourselves
      && (th.op.Sweeping? && th.op.pc.HRead? ==> 0 <= th.node < |s.nodes| && s.nodes[th.node].control == Control.Idle)
      && (th.op.Sweeping? && HasObs(th.op.pc) ==> ObsOf(th.op.pc).n != th.node)
      // LocalNode: the node is in use, and by this thread
      && (Reading(th.call) || th.op.Sweeping? || th.op.XSwap? ==> 0 <= th.node < |s.nodes| && s.nodes[th.node].use == Used(t))
  {
    ReachableInv(s);
    Unfold(s, t);
    if s.threads[t].call.FSlot? { HelpingFree(s, t); }
  }

  /** A node has one owner. */
  lemma OneThreadPerNode(s: State, t: nat, u: nat)
    requires Reachable(s) && t < |s.threads| && u < |s.threads|
    requires 0 <= s.threads[t].node && s.threads[t].node == s.threads[u].node
    ensures t == u
  {
    ReachableInv(s);
    assert ThreadOK(s, t) && ThreadOK(s, u);
  }

  // ---------------------------------------------------------------------------------------------
  // Helping

  /** ABA: a compare-exchange on a control word that would succeed meets the very transaction that
      was seen, and that transaction reads the helper's own cell. */
  lemma HelpsWhatItSaw(s: State, t: nat)
    requires Reachable(s) && t < |s.threads| && s.threads[t].op.Sweeping? && s.threads[t].op.pc.HCas?
    requires s.threads[t].op.pc.o.n < |s.nodes|
    requires SameGen(s.nodes[s.threads[t].op.pc.o.n].control, s.threads[t].op.pc.o.gen)
    ensures var o := s.threads[t].op.pc.o; var nd := s.nodes[o.n];
      && nd.control.txn == o.txn
      && nd.use.Used? && nd.use.owner < |s.threads|
      && Published(s.threads[nd.use.owner].call)
      && s.threads[nd.use.owner].call.x == o.txn
      && s.threads[nd.use.owner].call.ask.cell == s.threads[t].op.job.cell
  {
    ReachableInv(s);
    assert ThreadOK(s, t);
    OpenTransaction(s, s.threads[t].op.pc.o.n);
  }

  /** While a writer is on a node that is no longer owned, nobody can claim it. */
  lemma ReservedNodeStaysPut(s: State, n: nat, t: nat, u: nat)
    requires Reachable(s) && n < |s.nodes| && t < |s.threads|
    requires s.threads[t].op.Sweeping? && HasObs(s.threads[t].op.pc) && ObsOf(s.threads[t].op.pc).n == n
    requires u < |s.threads| && s.threads[u].call.NoCall? && (s.threads[u].op == GCheck(n) || s.threads[u].op == GClaim(n))
    ensures s.nodes[n].writers > 0 && !s.nodes[n].use.Unused?
    ensures Ready(s, u)
    ensures s.threads[u].op.GCheck? ==> DoGCheck(s, u).nodes == s.nodes
    ensures s.threads[u].op.GClaim? ==> DoGClaim(s, u).nodes == s.nodes
  {
    ReachableInv(s);
    Unfold(s, u);
    assert ThreadOK(s, t) && NodeOK(s, n);
    assert InsideOf(s.threads[t].op, s.threads[t].node, n);
    assert t in s.nodes[n].inside;
    assert s.nodes[n].inside != {};
  }

  /** When `help` is over for node `n`, no transaction on the writer's cell that began before the
      writer's swap is open there: it confirmed, or was given a replacement. */
  lemma HelpIsComplete(s: State, t: nat, n: nat)
    requires Reachable(s) && t < |s.threads| && n < |s.nodes|
    requires s.threads[t].op.Sweeping? && !WillHelp(s.threads[t].op.pc, n)
    requires s.nodes[n].control.Gen?
    ensures s.nodes[n].use.Used? && s.nodes[n].use.owner < |s.threads|
    ensures var th := s.threads[s.nodes[n].use.owner];
      Published(th.call) && (th.call.ask.cell == s.threads[t].op.job.cell ==> s.threads[t].op.job.tick <= th.call.x)
  {
    ReachableInv(s);
    assert ThreadOK(s, t);
    OpenTransaction(s, n);
    assert Passed(s, s.threads[t].op.job, n);
  }

  ghost predicate HasOwner(s: State, e: nat) {
    exists n :: 0 <= n < |s.nodes| && Envelope(s, n) == e
  }

  /** The envelopes are a permutation of the nodes: no two share one, and none is lost. */
  lemma EnvelopesPermute(s: State)
    requires Reachable(s)
    ensures forall n :: 0 <= n < |s.nodes| ==> Envelope(s, n) < |s.nodes|
    ensures forall m, n :: 0 <= m < n < |s.nodes| ==> Envelope(s, m) != Envelope(s, n)
    ensures forall e :: 0 <= e < |s.nodes| ==> HasOwner(s, e)
  {
    ReachableInv(s);
    var f: seq<nat> := seq(|s.nodes|, n requires 0 <= n < |s.nodes| => Envelope(s, n));
    forall m, n | 0 <= m < n < |f| ensures f[m] != f[n] { assert Envelope(s, m) != Envelope(s, n); }
    forall n | 0 <= n < |f| ensures f[n] in Range(|f|) { assert Envelope(s, n) < |s.nodes|; }
    Onto(f);
    forall e | 0 <= e < |s.nodes| ensures HasOwner(s, e) {
      assert e in Range(|f|);
      var n :| 0 <= n < |f| && f[n] == e;
      assert Envelope(s, n) == e;
    }
  }

  function Range(k: nat): (r: set<nat>)
    ensures |r| == k
    ensures forall e: nat :: e in r <==> e < k
  {
    if k == 0 then {} else Range(k - 1) + {k - 1}
  }

  /** Distinct numbers below their own count are all the numbers below it. */
  lemma Onto(f: seq<nat>)
    requires forall n :: 0 <= n < |f| ==> f[n] in Range(|f|)
    requires forall m, n :: 0 <= m < n < |f| ==> f[m] != f[n]
    ensures forall e :: e in Range(|f|) ==> e in f
  {
    var img := set n | 0 <= n < |f| :: f[n];
    ImageSize(f, img);
    var rest := Range(|f|) - img;
    assert Range(|f|) == img + rest;
    assert |rest| == 0;
    forall e | e in Range(|f|) ensures e in f { assert e !in rest; assert e in img; }
  }

  lemma {:induction false} ImageSize(f: seq<nat>, img: set<nat>)
    requires forall m, n :: 0 <= m < n < |f| ==> f[m] != f[n]
    requires img == set n | 0 <= n < |f| :: f[n]
    ensures |img| == |f|
  {
    if |f| > 0 {
      var k := |f| - 1;
      var g := f[..k];
      var sub := set n | 0 <= n < |g| :: g[n];
      ImageSize(g, sub);
      assert img == sub + {f[k]} by {
        forall x | x in img ensures x in sub + {f[k]} {
          var n :| 0 <= n < |f| && f[n] == x;
          if n < k { assert g[n] == x; }
        }
        forall x | x in sub + {f[k]} ensures x in img {
          if x in sub { var n :| 0 <= n < |g| && g[n] == x; assert f[n] == x; }
        }
      }
      assert f[k] !in sub;
    }
  }

  /** A helped reader takes out of the envelope exactly the pointer that its helper put there, and
      it is one that its own cell held during the load. */
  lemma HelpedReaderReads(s: State, t: nat)
    requires Reachable(s) && t < |s.threads| && s.threads[t].call.FEnv?
    ensures var FEnv(ask, _, _, e, r) := s.threads[t].call;
      e < |s.env| && s.env[e] == r && Seen(s, ask.cell, ask.since, r)
  {
    ReachableInv(s);
    assert ThreadOK(s, t);
  }

  // ---------------------------------------------------------------------------------------------
  // Quiescence

  /** Nothing is going on, and no guard is left. */
  ghost predicate Quiescent(s: State) {
    && (forall t :: 0 <= t < |s.threads| ==> (s.threads[t].op.Idle? || s.threads[t].op.Exited?) && s.threads[t].call.NoCall?)
    && (forall g :: 0 <= g < |s.guards| ==> s.guards[g].status.Gone?)
  }

  lemma {:induction false} NoGuards(xs: seq<Guard>, p: Ptr)
    requires forall g :: 0 <= g < |xs| ==> xs[g].status.Gone?
    ensures SumGuards(xs, p) == 0
  {
    if |xs| > 0 { NoGuards(xs[..|xs| - 1], p); }
  }

  lemma {:induction false} NoReplies(xs: seq<Node>, p: Ptr)
    requires forall n :: 0 <= n < |xs| ==> !xs[n].control.Repl?
    ensures SumNodes(xs, p) == 0
  {
    if |xs| > 0 { NoReplies(xs[..|xs| - 1], p); }
  }

  lemma {:induction false} NoWork(xs: seq<Thread>, p: Ptr)
    requires forall t :: 0 <= t < |xs| ==> (xs[t].op.Idle? || xs[t].op.Exited?) && xs[t].call.NoCall?
    ensures SumThreads(xs, p) == 0
  {
    if |xs| > 0 { NoWork(xs[..|xs| - 1], p); }
  }

  /** At rest every slot is free, every control idle, every writer count zero, and each count is
      exactly what storages and outside handles own: nothing leaked, nothing released twice. */
  lemma QuiescentState(s: State)
    requires Reachable(s) && Quiescent(s)
    ensures forall n :: 0 <= n < |s.nodes| ==>
      && s.nodes[n].control == Control.Idle && s.nodes[n].writers == 0
      && |s.nodes[n].slots| == SLOTS && (forall j :: 0 <= j < SLOTS ==> s.nodes[n].slots[j].Free?)
    ensures forall p :: s.refs[p] == s.handles[p] + SumCells(s.cells, p)
  {
    ReachableInv(s);
    forall n | 0 <= n < |s.nodes| ensures
      && s.nodes[n].control == Control.Idle && s.nodes[n].writers == 0
      && |s.nodes[n].slots| == SLOTS && (forall j :: 0 <= j < SLOTS ==> s.nodes[n].slots[j].Free?)
    {
      QuiescentNode(s, n);
    }
    forall p ensures s.refs[p] == s.handles[p] + SumCells(s.cells, p) {
      assert s.refs[p] == Owned(s, p);
      NoGuards(s.guards, p);
      NoReplies(s.nodes, p);
      NoWork(s.threads, p);
    }
  }

  lemma QuiescentNode(s: State, n: nat)
    requires Inv(s) && Quiescent(s) && n < |s.nodes|
    ensures s.nodes[n].control == Control.Idle && s.nodes[n].writers == 0
    ensures |s.nodes[n].slots| == SLOTS && (forall j :: 0 <= j < SLOTS ==> s.nodes[n].slots[j].Free?)
  {
    assert NodeOK(s, n);
    var nd := s.nodes[n];
    if nd.use.Used? { assert ThreadOK(s, nd.use.owner); }
    forall j | 0 <= j < SLOTS ensures nd.slots[j].Free? { assert SlotOK(s, n, j); }
    forall i ensures i !in nd.inside {}
    assert nd.inside == {};
  }
}
