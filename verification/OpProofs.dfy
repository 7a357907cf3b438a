/** The public operations, the life cycle of a node, and what users may start. */
module OpProofs {
  import opened Protocol
  import opened Steps
  import opened Invariant
  import opened Counting
  import opened Rely
  import opened Moves
  import opened CallMoves
  import opened CallProofs
  import opened SweepProofs
  import opened HelpProofs

  /** Thread `t` is in an operation without a call, and does not sweep. */
  predicate Plainly(s: State, t: nat) {
    t < |s.threads| && s.threads[t].call.NoCall? && !s.threads[t].op.Sweeping?
  }

  /** A step of an operation that changes only its own thread. */
  lemma QuietOp(s: State, s': State, t: nat)
    requires Inv(s) && t < |s.threads| && !s.threads[t].op.Sweeping?
    requires |s'.threads| == |s.threads|
    requires s' == s.(threads := s.threads[t := s'.threads[t]], refs := s'.refs, handles := s'.handles)
    requires Advances(s.threads[t], s'.threads[t]) && SameHands(s.threads[t], s'.threads[t], |s.guards|)
    requires SamePlace(s.threads[t], s'.threads[t], |s.nodes|) && s'.threads[t].node == s.threads[t].node
    requires Tag(s'.threads[t]) == Tag(s.threads[t]) && Storing(s'.threads[t]) == Storing(s.threads[t])
    requires ThreadOK(s', t)
    requires forall p :: s'.refs[p] - s'.handles[p] - ThreadOwns(s'.threads[t], p) ==
                         s.refs[p] - s.handles[p] - ThreadOwns(s.threads[t], p)
    ensures Inv(s')
  {
    SameWriter(s, s', t);
    QuietStep(s, s', t, s'.threads[t]);
  }

  // ---------------------------------------------------------------------------------------------
  // Node::get

  lemma GHeadOK(s: State, t: nat)
    requires Inv(s) && Plainly(s, t) && s.threads[t].op.GHead?
    ensures Ready(s, t) && Inv(DoGHead(s, t))
  {
    Unfold(s, t);
    QuietOp(s, DoGHead(s, t), t);
  }

  lemma GTopOK(s: State, t: nat)
    requires Inv(s) && Plainly(s, t) && s.threads[t].op.GTop?
    ensures Ready(s, t) && Inv(DoGTop(s, t))
  {
    Unfold(s, t);
    QuietOp(s, DoGTop(s, t), t);
  }

  /** Node `y` changes its use; everything else in it stays. */
  ghost predicate UseOnly(s: State, s': State, t: nat, y: nat) {
    && y < |s.nodes| && t < |s.threads| == |s'.threads|
    && |s'.nodes| == |s.nodes| && s'.nodes == s.nodes[y := s.nodes[y].(use := s'.nodes[y].use)]
    && s' == s.(nodes := s'.nodes, threads := s.threads[t := s'.threads[t]])
    && s.nodes[y].control == Control.Idle
    && s'.threads[t].call.NoCall? && s.threads[t].call.NoCall?
    && !s'.threads[t].op.Sweeping? && !s.threads[t].op.Sweeping?
    && (forall g :: !OpHolds(s.threads[t].op, g))
    && s'.threads[t].gen == s.threads[t].gen
  }

  lemma UseBalance(s: State, s': State, t: nat, y: nat)
    requires UseOnly(s, s', t, y) && Balanced(s)
    requires forall p :: ThreadOwns(s'.threads[t], p) == ThreadOwns(s.threads[t], p)
    ensures Balanced(s')
  {
    forall p ensures s'.refs[p] == Owned(s', p) {
      assert s.refs[p] == Owned(s, p);
      ThreadSum(s.threads, t, s'.threads[t], p);
      NodeSum(s.nodes, y, s'.nodes[y], p);
    }
  }

  lemma UseEnvelopes(s: State, s': State, t: nat, y: nat)
    requires UseOnly(s, s', t, y) && EnvelopesOK(s)
    requires forall n :: 0 <= n < |s.nodes| ==> NodeOK(s, n)
    requires s.nodes[y].use.Used? ==> s.nodes[y].use.owner == t
    requires s'.nodes[y].use.Used? ==> s'.nodes[y].use.owner == t
    ensures EnvelopesOK(s')
  {
    forall n | 0 <= n < |s.nodes| ensures Envelope(s', n) == Envelope(s, n) { assert NodeOK(s, n); }
    SameEnvelopes(s, s');
  }

  lemma UseStep(s: State, s': State, t: nat, y: nat)
    requires Inv(s) && UseOnly(s, s', t, y) && SamePlace(s.threads[t], s'.threads[t], y)
    requires NodeOK(s', y) && NodeFrame(s, s', t, y)
    ensures Step(s, s', t, |s.guards|, y)
  {
    SameCells(s, s', t);
    SameWriter(s, s', t);
    PlainStep(s, s', t, |s.guards|, y);
  }

  lemma UseNode(s: State, s': State, t: nat, y: nat)
    requires UseOnly(s, s', t, y) && NodeOK(s, y)
    requires InsideOf(s.threads[t].op, s.threads[t].node, y) ==> InsideOf(s'.threads[t].op, s'.threads[t].node, y)
    requires s'.nodes[y].use.Used? ==> s'.nodes[y].use.owner < |s.threads| && s'.threads[s'.nodes[y].use.owner].node == y
    ensures NodeOK(s', y)
  {
    forall j | 0 <= j < SLOTS ensures SlotOK(s', y, j) { assert SlotOK(s, y, j); }
  }

  lemma GCheckOK(s: State, t: nat)
    requires Inv(s) && Plainly(s, t) && s.threads[t].op.GCheck?
    ensures Ready(s, t) && Inv(DoGCheck(s, t))
  {
    Unfold(s, t);
    var n := s.threads[t].op.n;
    if s.nodes[n].use.Cooldown? && s.nodes[n].writers == 0 { GCheckHit(s, t); } else { QuietOp(s, DoGCheck(s, t), t); }
  }

  lemma GCheckHit(s: State, t: nat)
    requires Inv(s) && Ready(s, t) && Plainly(s, t) && s.threads[t].op.GCheck?
    requires s.nodes[s.threads[t].op.n].use.Cooldown? && s.nodes[s.threads[t].op.n].writers == 0
    ensures Inv(DoGCheck(s, t))
  {
    var n := s.threads[t].op.n;
    var s' := DoGCheck(s, t);
    assert ThreadOK(s, t) && NodeOK(s, n);
    assert s.nodes[n].inside == {};
    UseNode(s, s', t, n);
    UseStep(s, s', t, n);
    UseEnvelopes(s, s', t, n);
    UseBalance(s, s', t, n);
    Commit(s, s', t, |s.guards|, n);
  }

  lemma GClaimHit(s: State, t: nat)
    requires Inv(s) && Ready(s, t) && Plainly(s, t) && s.threads[t].op.GClaim? && s.nodes[s.threads[t].op.n].use.Unused?
    ensures Inv(DoGClaim(s, t))
  {
    var n := s.threads[t].op.n;
    var s' := DoGClaim(s, t);
    assert ThreadOK(s, t) && NodeOK(s, n);
    UseNode(s, s', t, n);
    UseStep(s, s', t, n);
    UseEnvelopes(s, s', t, n);
    UseBalance(s, s', t, n);
    Commit(s, s', t, |s.guards|, n);
  }

  lemma GClaimOK(s: State, t: nat)
    requires Inv(s) && Plainly(s, t) && s.threads[t].op.GClaim?
    ensures Ready(s, t) && Inv(DoGClaim(s, t))
  {
    Unfold(s, t);
    if s.nodes[s.threads[t].op.n].use.Unused? {
      GClaimHit(s, t);
    } else {
      assert NodeOK(s, s.threads[t].op.n);
      QuietOp(s, DoGClaim(s, t), t);
    }
  }

  // Publication of a new node.

  lemma PushBalance(s: State, s': State, t: nat)
    requires Ready(s, t) && Balanced(s) && s.threads[t].op.GPush? && s.head == s.threads[t].op.h && s' == DoGPush(s, t, false)
    ensures Balanced(s')
  {
    forall p ensures s'.refs[p] == Owned(s', p) {
      assert s.refs[p] == Owned(s, p);
      ThreadSum(s.threads, t, s'.threads[t], p);
      NodeAppend(s.nodes, FreshNode(|s.nodes|, s.head, t), p);
    }
  }

  lemma PushEnvelopes(s: State, s': State, t: nat)
    requires Inv(s) && Ready(s, t) && Plainly(s, t) && s.threads[t].op.GPush? && s.head == s.threads[t].op.h && s' == DoGPush(s, t, false)
    ensures EnvelopesOK(s')
  {
    forall n | 0 <= n < |s.nodes| ensures Envelope(s', n) == Envelope(s, n) { assert NodeOK(s, n); }
    forall n | 0 <= n < |s'.nodes| ensures Envelope(s', n) < |s'.nodes| {
      if n < |s.nodes| { assert Envelope(s, n) < |s.nodes|; }
    }
    forall m, n | 0 <= m < n < |s'.nodes| ensures Envelope(s', m) != Envelope(s', n) {
      assert Envelope(s, m) < |s.nodes|;
      if n < |s.nodes| { assert Envelope(s, m) != Envelope(s, n); }
    }
  }

  lemma PushStep(s: State, s': State, t: nat)
    requires Inv(s) && Ready(s, t) && Plainly(s, t) && s.threads[t].op.GPush? && s.head == s.threads[t].op.h && s' == DoGPush(s, t, false)
    ensures Step(s, s', t, |s.guards|, |s.nodes|)
  {
    assert ThreadOK(s, t);
    SameCells(s, s', t);
    SameWriter(s, s', t);
    MineStable(s, s', t, |s.guards|);
    PlaceStable(s, s', t, |s.nodes|);
    var y := |s.nodes|;
    forall j | 0 <= j < SLOTS ensures SlotOK(s', y, j) {}
    forall g | 0 <= g < |s.guards| ensures Kept(s, s', g) { assert GuardOK(s, g); }
  }

  lemma GPushOK(s: State, t: nat, fail: bool)
    requires Inv(s) && Plainly(s, t) && s.threads[t].op.GPush?
    ensures Ready(s, t) && Inv(DoGPush(s, t, fail))
  {
    Unfold(s, t);
    if s.head == s.threads[t].op.h && !fail { GPushHit(s, t); } else { QuietOp(s, DoGPush(s, t, fail), t); }
  }

  lemma GPushHit(s: State, t: nat)
    requires Inv(s) && Ready(s, t) && Plainly(s, t) && s.threads[t].op.GPush? && s.head == s.threads[t].op.h
    ensures Inv(DoGPush(s, t, false))
  {
    var s' := DoGPush(s, t, false);
    assert ThreadOK(s, t);
    PushStep(s, s', t);
    PushEnvelopes(s, s', t);
    PushBalance(s, s', t);
    Commit(s, s', t, |s.guards|, |s.nodes|);
  }

  // ---------------------------------------------------------------------------------------------
  // LocalNode::drop

  lemma XReserveShape(s: State, t: nat)
    requires Inv(s) && Ready(s, t) && Plainly(s, t) && s.threads[t].op.XReserve? && ThreadOK(s, t)
    ensures CountsOnly(s, DoXReserve(s, t), t, s.threads[t].node)
  {
    assert NodeOK(s, s.threads[t].node);
  }

  lemma XReserveOK(s: State, t: nat)
    requires Inv(s) && Plainly(s, t) && s.threads[t].op.XReserve?
    ensures Ready(s, t) && Inv(DoXReserve(s, t))
  {
    Unfold(s, t);
    var s' := DoXReserve(s, t);
    var n := s.threads[t].node;
    XReserveShape(s, t);
    SameWriter(s, s', t);
    CountsDone(s, s', t, n);
  }

  lemma XSwapOK(s: State, t: nat)
    requires Inv(s) && Plainly(s, t) && s.threads[t].op.XSwap?
    ensures Ready(s, t) && Inv(DoXSwap(s, t))
  {
    Unfold(s, t);
    var s' := DoXSwap(s, t);
    var n := s.threads[t].node;
    UseNode(s, s', t, n);
    UseStep(s, s', t, n);
    UseEnvelopes(s, s', t, n);
    UseBalance(s, s', t, n);
    Commit(s, s', t, |s.guards|, n);
  }

  lemma XReleaseShape(s: State, t: nat)
    requires Inv(s) && Ready(s, t) && Plainly(s, t) && s.threads[t].op.XRelease? && ThreadOK(s, t)
    ensures CountsOnly(s, DoXRelease(s, t), t, s.threads[t].op.n)
  {
    var n := s.threads[t].op.n;
    assert NodeOK(s, n);
    assert InsideOf(s.threads[t].op, s.threads[t].node, n);
    assert t in s.nodes[n].inside;
  }

  lemma XReleaseOK(s: State, t: nat)
    requires Inv(s) && Plainly(s, t) && s.threads[t].op.XRelease?
    ensures Ready(s, t) && Inv(DoXRelease(s, t))
  {
    Unfold(s, t);
    var s' := DoXRelease(s, t);
    var n := s.threads[t].op.n;
    XReleaseShape(s, t);
    SameWriter(s, s', t);
    CountsDone(s, s', t, n);
  }
}
