/** The common shapes of a step, and the parts of the rely that they get for free. */
module Moves {
  import opened Protocol
  import opened Steps
  import opened Invariant
  import opened Counting
  import opened Rely

  lemma InvShape(s: State)
    requires Inv(s)
    ensures Shape(s)
  {
    forall n | 0 <= n < |s.nodes| ensures NodeShape(s, n) {
      assert NodeOK(s, n);
      var nd := s.nodes[n];
      forall j | 0 <= j < SLOTS && nd.slots[j].Owes? ensures nd.slots[j].who < |s.guards| { assert SlotOK(s, n, j); }
      if nd.control.Repl? { assert ThreadOK(s, nd.use.owner); }
    }
    forall g | 0 <= g < |s.guards| ensures GuardShape(s, g) { assert GuardOK(s, g); }
    forall t | 0 <= t < |s.threads| ensures ThreadShape(s, t) { assert ThreadOK(s, t); ShapeOfThread(s, t); }
  }

  lemma ShapeOfThread(s: State, t: nat)
    requires t < |s.threads| && ThreadOK(s, t)
    ensures ThreadShape(s, t)
  {
  }

  /** Everything a step of `t` may rely on. */
  lemma Unfold(s: State, t: nat)
    requires Inv(s) && t < |s.threads|
    ensures Ready(s, t) && ThreadOK(s, t)
    ensures 0 <= s.threads[t].node ==> NodeOK(s, s.threads[t].node)
    ensures HasGuard(s.threads[t].call) ==> GuardOK(s, s.threads[t].call.g)
  {
    InvShape(s);
    assert ThreadShape(s, t) && ThreadOK(s, t);
    if 0 <= s.threads[t].node { assert NodeShape(s, s.threads[t].node) && NodeOK(s, s.threads[t].node); }
    if HasGuard(s.threads[t].call) { assert GuardShape(s, s.threads[t].call.g) && GuardOK(s, s.threads[t].call.g); }
  }

  /** `b` keeps every guard of `a`, except `x`. */
  ghost predicate SameHands(a: Thread, b: Thread, x: nat) {
    forall g :: g != x ==>
      && (CallPends(a.call, g) ==> CallPends(b.call, g))
      && (CallHolds(a.call, g) || OpHolds(a.op, g) ==> CallHolds(b.call, g) || OpHolds(b.op, g))
      && (OnHelping(a.call, g) ==> OnHelping(b.call, g) && a.node == b.node)
  }

  /** `b` stays where `a` was, except at node `y`. */
  ghost predicate SamePlace(a: Thread, b: Thread, y: nat) {
    forall n: nat :: n != y ==>
      && (InsideOf(a.op, a.node, n) ==> InsideOf(b.op, b.node, n))
      && (a.node == n ==> b.node == n)
  }

  ghost predicate Advances(a: Thread, b: Thread) {
    && a.gen <= b.gen
    && (b.call.FCtrl? ==> a.call.FCtrl? || a.gen < b.gen)
    && (Published(a.call) && Published(b.call) ==> a.call.ask == b.call.ask && a.call.x == b.call.x)
  }

  lemma MineStable(s: State, s': State, u: nat, x: nat)
    requires forall g :: 0 <= g < |s.guards| ==> GuardOK(s, g)
    requires u < |s.threads| == |s'.threads| && SameHands(s.threads[u], s'.threads[u], x)
    ensures forall g :: 0 <= g < |s.guards| && g != x ==> StillMine(s, s', u, g)
  {
    forall g | 0 <= g < |s.guards| && g != x ensures StillMine(s, s', u, g) {
      assert GuardOK(s, g);
    }
  }

  lemma PlaceStable(s: State, s': State, u: nat, y: nat)
    requires u < |s.threads| == |s'.threads| && SamePlace(s.threads[u], s'.threads[u], y)
    ensures forall n :: 0 <= n < |s.nodes| && n != y ==> StillInside(s, s', u, n)
  {
  }

  /** The cells are as before. */
  lemma SameCells(s: State, s': State, u: nat)
    requires Inv(s) && s'.cells == s.cells
    ensures CellsFrame(s, s', u)
  {
    forall c | 0 <= c < |s.cells| ensures CellFrame(s, s', u, c) && CellOK(s', c) { assert CellOK(s, c); }
  }

  /** No writer moved. */
  lemma SameWriter(s: State, s': State, u: nat)
    requires u < |s.threads| && u < |s'.threads| ==> s'.threads[u].op == s.threads[u].op || !s.threads[u].op.Sweeping?
    ensures WriterFrame(s, s', u)
  {
    forall n | 0 <= n < |s'.nodes| ensures HelpFrame(s, s', u, n) {}
    forall n, j | 0 <= n < |s'.nodes| && 0 <= j < |s'.nodes[n].slots| ensures PassFrame(s, s', u, n, j) {}
  }

  /** Only thread `u`, guard `x` and node `y` (but none of its slots) changed. */
  ghost predicate Plain(s: State, s': State, u: nat, x: nat, y: nat) {
    && u < |s.threads| == |s'.threads| && |s'.guards| == |s.guards| && |s'.nodes| == |s.nodes|
    && s'.head == s.head && |s'.env| == |s.env| && s.nextTxn <= s'.nextTxn
    && (forall i :: 0 <= i < |s.threads| && i != u ==> s'.threads[i] == s.threads[i])
    && (forall g :: 0 <= g < |s.guards| && g != x ==> s'.guards[g] == s.guards[g])
    && (forall n :: 0 <= n < |s.nodes| && n != y ==> s'.nodes[n] == s.nodes[n])
    && (y < |s.nodes| ==> s'.nodes[y].slots == s.nodes[y].slots)
  }

  lemma PlainStep(s: State, s': State, u: nat, x: nat, y: nat)
    requires Inv(s) && Plain(s, s', u, x, y)
    requires Advances(s.threads[u], s'.threads[u])
    requires SameHands(s.threads[u], s'.threads[u], x) && SamePlace(s.threads[u], s'.threads[u], y)
    requires x < |s.guards| ==>
      && GuardOK(s', x)
      && (s.guards[x].status.Loose? || s.guards[x].status == Pending(u) || s.guards[x].status == Held(u))
      && (!s.guards[x].paid ==>
            s'.guards[x].ptr == s.guards[x].ptr && s'.guards[x].debt == s.guards[x].debt &&
            !s'.guards[x].paid && !s'.guards[x].status.Gone?)
    requires y < |s.nodes| ==> NodeFrame(s, s', u, y) && NodeOK(s', y)
    requires CellsFrame(s, s', u) && EnvFrame(s, s', u) && WriterFrame(s, s', u)
    ensures Step(s, s', u, x, y)
  {
    MineStable(s, s', u, x);
    PlaceStable(s, s', u, y);
    forall g | 0 <= g < |s.guards| && g != x ensures Kept(s, s', g) {
      assert GuardOK(s, g);
      var gd := s.guards[g];
      if !gd.status.Gone? && gd.debt.At? { assert s'.nodes[gd.debt.node].slots == s.nodes[gd.debt.node].slots; }
    }
  }

  /** The envelopes stay where they are. */
  lemma SameEnvelopes(s: State, s': State)
    requires EnvelopesOK(s) && |s'.nodes| == |s.nodes|
    requires forall n :: 0 <= n < |s.nodes| ==> Envelope(s', n) == Envelope(s, n)
    ensures EnvelopesOK(s')
  {
    forall n | 0 <= n < |s'.nodes| ensures Envelope(s', n) < |s'.nodes| { assert Envelope(s, n) < |s.nodes|; }
    forall m, n | 0 <= m < n < |s'.nodes| ensures Envelope(s', m) != Envelope(s', n) {
      assert Envelope(s, m) != Envelope(s, n);
    }
  }

  /** What a thread says about its node's envelope. */
  function Tag(th: Thread): int {
    if th.op.Sweeping? && th.op.pc.HStore? then th.op.pc.their
    else if th.call.FEnv? || th.call.FOffer? then th.call.e
    else -1
  }

  predicate Storing(th: Thread) {
    th.op.Sweeping? && th.op.pc.HStore?
  }

  /** Only thread `u` changed, and not in what it says about envelopes. */
  lemma ThreadEnvelopes(s: State, s': State, u: nat)
    requires EnvelopesOK(s) && s'.nodes == s.nodes && u < |s.threads| == |s'.threads|
    requires forall i :: 0 <= i < |s.threads| && i != u ==> s'.threads[i] == s.threads[i]
    requires Tag(s'.threads[u]) == Tag(s.threads[u]) && Storing(s'.threads[u]) == Storing(s.threads[u])
    ensures EnvelopesOK(s')
  {
    forall n | 0 <= n < |s.nodes| ensures Envelope(s', n) == Envelope(s, n) {}
    SameEnvelopes(s, s');
  }

  /** Only thread `u` changed, and what it owns. */
  lemma ThreadBalance(s: State, s': State, u: nat, b: Thread)
    requires Balanced(s) && u < |s.threads|
    requires s' == s.(threads := s.threads[u := b], refs := s'.refs, handles := s'.handles)
    requires forall p :: s'.refs[p] - s'.handles[p] - ThreadOwns(b, p) == s.refs[p] - s.handles[p] - ThreadOwns(s.threads[u], p)
    ensures Balanced(s')
  {
    forall p ensures s'.refs[p] == Owned(s', p) {
      assert s.refs[p] == Owned(s, p);
      ThreadSum(s.threads, u, b, p);
    }
  }

  /** A step that changes only its own thread, and nothing that others look at. */
  lemma QuietStep(s: State, s': State, u: nat, b: Thread)
    requires Inv(s) && u < |s.threads|
    requires s' == s.(threads := s.threads[u := b], refs := s'.refs, handles := s'.handles)
    requires Advances(s.threads[u], b) && SameHands(s.threads[u], b, |s.guards|) && SamePlace(s.threads[u], b, |s.nodes|)
    requires b.node == s.threads[u].node
    requires Tag(b) == Tag(s.threads[u]) && Storing(b) == Storing(s.threads[u])
    requires WriterFrame(s, s', u)
    requires ThreadOK(s', u)
    requires forall p :: s'.refs[p] - s'.handles[p] - ThreadOwns(b, p) == s.refs[p] - s.handles[p] - ThreadOwns(s.threads[u], p)
    ensures Inv(s')
  {
    SameCells(s, s', u);
    PlainStep(s, s', u, |s.guards|, |s.nodes|);
    ThreadEnvelopes(s, s', u);
    ThreadBalance(s, s', u, b);
    Commit(s, s', u, |s.guards|, |s.nodes|);
  }

  // ---------------------------------------------------------------------------------------------
  // Steps of a nested call: the operation of `u` stands still

  /** Nothing that the suspended operation of `u` depends on has changed. */
  ghost predicate Suspended(s: State, s': State, u: nat) {
    && u < |s.threads| == |s'.threads|
    && s'.threads[u].op == s.threads[u].op && s'.threads[u].node == s.threads[u].node
    && s'.cells == s.cells && |s'.nodes| == |s.nodes| && |s'.env| == |s.env| && s.nextTxn <= s'.nextTxn
    && |s.guards| <= |s'.guards|
    && (forall i :: 0 <= i < |s.threads| && i != u ==> s'.threads[i] == s.threads[i])
    && (forall n {:trigger s'.nodes[n]} :: 0 <= n < |s.nodes| && n != s.threads[u].node ==>
          s'.nodes[n].(slots := s.nodes[n].slots) == s.nodes[n])
    && (0 <= s.threads[u].node < |s.nodes| ==>
          var a, b := s.nodes[s.threads[u].node], s'.nodes[s.threads[u].node];
          && b.inside == a.inside
          && (b.control.Gen? ==> (b.control == a.control && b.addr == a.addr) || s.nextTxn <= b.control.txn))
    && (forall g {:trigger OpHolds(s.threads[u].op, g)} :: 0 <= g < |s.guards| && OpHolds(s.threads[u].op, g) ==>
          s'.guards[g].status == s.guards[g].status && s'.guards[g].ptr == s.guards[g].ptr)
  }

  lemma SuspendedOp(s: State, s': State, u: nat)
    requires Suspended(s, s', u) && OwnOK(s, u) && OpOK(s, u)
    ensures OpOK(s', u)
  {
    var th := s.threads[u];
    forall n {:trigger s'.nodes[n]} | 0 <= n < |s'.nodes| && InsideOf(th.op, th.node, n) ensures u in s'.nodes[n].inside {
      assert u in s.nodes[n].inside;
    }
    match th.op
    case CTry(_, _, _, g) => assert OpHolds(th.op, g);
    case CKeep(_, _, g) => assert OpHolds(th.op, g);
    case Sweeping(job, _) => if job.kind.KCas? { assert OpHolds(th.op, job.kind.g); }
    case _ =>
  }

  lemma SuspendedObs(s: State, s': State, u: nat)
    requires Suspended(s, s', u) && OwnOK(s, u) && ObsOK(s, u)
    requires InCall(s.threads[u].call)
    requires forall n :: 0 <= n < |s.nodes| ==> NodeOK(s, n)
    ensures ObsOK(s', u)
  {
    var th := s.threads[u];
    if th.op.Sweeping? && HasObs(th.op.pc) {
      var o := ObsOf(th.op.pc);
      assert s'.nodes[o.n].control == s.nodes[o.n].control;
      assert NodeOK(s, o.n);
    }
  }

  lemma SuspendedBarrier(s: State, s': State, u: nat)
    requires Suspended(s, s', u) && OpOK(s, u) && BarrierOK(s, u)
    ensures BarrierOK(s', u)
  {
    var th := s.threads[u];
    if th.op.Sweeping? {
      forall n | 0 <= n < |s'.nodes| && !WillHelp(th.op.pc, n) ensures Passed(s', th.op.job, n) {
        assert Passed(s, th.op.job, n);
        assert n != th.node ==> s'.nodes[n].control == s.nodes[n].control;
      }
    }
  }

  /** What remains to be shown of the own thread after a step of a nested call. */
  ghost predicate CallInOrder(s': State, u: nat) {
    u < |s'.threads| && OwnOK(s', u) && CtlOK(s', u) && CallOK(s', u) && CandOK(s', u)
  }

  /** A call that is not inside a fallback transaction leaves the control alone. */
  lemma IdleCall(s: State, s': State, u: nat)
    requires u < |s.threads| == |s'.threads| && ThreadOK(s, u) && |s'.nodes| == |s.nodes|
    requires s'.threads[u] == s.threads[u].(call := s'.threads[u].call, offset := s'.threads[u].offset)
    requires !Published(s.threads[u].call) && !Published(s'.threads[u].call) && !s'.threads[u].call.FCtrl?
    requires 0 <= s.threads[u].node ==>
      && s'.nodes[s.threads[u].node].use == s.nodes[s.threads[u].node].use
      && s'.nodes[s.threads[u].node].control == s.nodes[s.threads[u].node].control
    requires CallFits(s.threads[u].op, s'.threads[u].call)
    requires Reading(s'.threads[u].call) ==> 0 <= s.threads[u].node
    requires HasGuard(s'.threads[u].call) ==> !OpHolds(s.threads[u].op, s'.threads[u].call.g)
    requires CallOK(s', u)
    ensures CallInOrder(s', u)
  {
  }

  lemma SuspendedThread(s: State, s': State, u: nat)
    requires Inv(s) && Suspended(s, s', u) && InCall(s.threads[u].call) && CallInOrder(s', u)
    ensures ThreadOK(s', u)
  {
    assert ThreadOK(s, u);
    SuspendedOp(s, s', u);
    SuspendedObs(s, s', u);
    SuspendedBarrier(s, s', u);
  }

  /** The guards of a call: `c` still refers to those that `a` refers to, except `x`. */
  ghost predicate SameGuards(a: Call, c: Call, x: nat) {
    && (forall g :: g != x && CallPends(a, g) ==> CallPends(c, g))
    && (forall g :: g != x && CallHolds(a, g) ==> CallHolds(c, g))
    && (forall g :: g != x && OnHelping(a, g) ==> OnHelping(c, g))
  }

  /** A step of a call that changes nothing shared but a reference count. */
  lemma QuietCall(s: State, s': State, u: nat, c: Call)
    requires Inv(s) && u < |s.threads| && InCall(s.threads[u].call)
    requires s' == SetCall(s, u, c).(refs := s'.refs)
    requires Advances(s.threads[u], s'.threads[u]) && SameGuards(s.threads[u].call, c, |s.guards|)
    requires Tag(s'.threads[u]) == Tag(s.threads[u])
    requires CallInOrder(s', u)
    requires forall p :: s'.refs[p] - CallOwns(c, p) == s.refs[p] - CallOwns(s.threads[u].call, p)
    ensures Inv(s')
  {
    assert ThreadOK(s, u);
    SuspendedThread(s, s', u);
    SameWriter(s, s', u);
    QuietStep(s, s', u, s'.threads[u]);
  }
}
