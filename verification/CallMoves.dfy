/** Steps of a nested call that touch a guard, a debt slot or the own node. */
module CallMoves {
  import opened Protocol
  import opened Steps
  import opened Invariant
  import opened Counting
  import opened Rely
  import opened Moves

  /** An unpaid debt cannot be changed without its slot. */
  ghost predicate KeepsDebt(a: Guard, b: Guard) {
    !a.paid ==> b.ptr == a.ptr && b.debt == a.debt && !b.paid && !b.status.Gone?
  }

  ghost predicate Mine(s: State, u: nat, x: nat)
    requires u < |s.threads|
  {
    && x < |s.guards| && (s.guards[x].status == Pending(u) || s.guards[x].status == Held(u))
    && !OpHolds(s.threads[u].op, x)
  }

  lemma GuardBalance(s: State, s': State, u: nat, c: Call, x: nat, gd: Guard)
    requires Balanced(s) && u < |s.threads| && x < |s.guards|
    requires s' == SetCall(SetGuard(s, x, gd), u, c).(refs := s'.refs)
    requires forall p :: s'.refs[p] - CallOwns(c, p) - GuardHolds(gd, p) ==
                         s.refs[p] - CallOwns(s.threads[u].call, p) - GuardHolds(s.guards[x], p)
    ensures Balanced(s')
  {
    forall p ensures s'.refs[p] == Owned(s', p) {
      assert s.refs[p] == Owned(s, p);
      ThreadSum(s.threads, u, s'.threads[u], p);
      GuardSum(s.guards, x, gd, p);
    }
  }

  lemma GuardCallStep(s: State, s': State, u: nat, c: Call, x: nat, gd: Guard)
    requires Inv(s) && u < |s.threads| && Mine(s, u, x)
    requires s' == SetCall(SetGuard(s, x, gd), u, c).(refs := s'.refs)
    requires Advances(s.threads[u], s'.threads[u]) && SameGuards(s.threads[u].call, c, x)
    requires GuardOK(s', x) && KeepsDebt(s.guards[x], gd)
    ensures Step(s, s', u, x, |s.nodes|)
  {
    SameWriter(s, s', u);
    SameCells(s, s', u);
    PlainStep(s, s', u, x, |s.nodes|);
  }

  /** A step of a call that changes its own guard. */
  lemma GuardCall(s: State, s': State, u: nat, c: Call, x: nat, gd: Guard)
    requires Inv(s) && u < |s.threads| && InCall(s.threads[u].call) && Mine(s, u, x)
    requires s' == SetCall(SetGuard(s, x, gd), u, c).(refs := s'.refs)
    requires Advances(s.threads[u], s'.threads[u]) && SameGuards(s.threads[u].call, c, x)
    requires Tag(s'.threads[u]) == Tag(s.threads[u])
    requires CallInOrder(s', u) && GuardOK(s', x) && KeepsDebt(s.guards[x], gd)
    requires forall p :: s'.refs[p] - CallOwns(c, p) - GuardHolds(gd, p) ==
                         s.refs[p] - CallOwns(s.threads[u].call, p) - GuardHolds(s.guards[x], p)
    ensures Inv(s')
  {
    SuspendedThread(s, s', u);
    GuardCallStep(s, s', u, c, x, gd);
    ThreadEnvelopes(s, s', u);
    GuardBalance(s, s', u, c, x, gd);
    Commit(s, s', u, x, |s.nodes|);
  }

  lemma NodeBalance(s: State, s': State, u: nat, th: Thread, y: nat, nd: Node)
    requires Balanced(s) && u < |s.threads| && y < |s.nodes|
    requires s' == SetNode(s, y, nd).(threads := s.threads[u := th], nextTxn := s'.nextTxn)
    requires forall p :: ThreadOwns(th, p) + NodeHolds(nd, p) == ThreadOwns(s.threads[u], p) + NodeHolds(s.nodes[y], p)
    ensures Balanced(s')
  {
    forall p ensures s'.refs[p] == Owned(s', p) {
      assert s.refs[p] == Owned(s, p);
      ThreadSum(s.threads, u, th, p);
      NodeSum(s.nodes, y, nd, p);
    }
  }

  lemma NodeEnvelopes(s: State, s': State, u: nat, y: nat)
    requires EnvelopesOK(s) && u < |s.threads| == |s'.threads| && y < |s.nodes| == |s'.nodes|
    requires s.nodes[y].use == Used(u)
    requires forall n :: 0 <= n < |s.nodes| ==> NodeOK(s, n)
    requires forall i :: 0 <= i < |s.threads| && i != u ==> s'.threads[i] == s.threads[i]
    requires forall n :: 0 <= n < |s.nodes| && n != y ==> s'.nodes[n] == s.nodes[n]
    requires Envelope(s', y) == Envelope(s, y)
    ensures EnvelopesOK(s')
  {
    assert NodeOK(s, y);
    forall n | 0 <= n < |s.nodes| ensures Envelope(s', n) == Envelope(s, n) { assert NodeOK(s, n); }
    SameEnvelopes(s, s');
  }

  lemma SameSlots(s: State, s': State, u: nat, y: nat, nd: Node)
    requires u < |s.threads| == |s'.threads| && NodeOK(s, y) && s'.guards == s.guards && |s'.env| == |s.env|
    requires forall i :: 0 <= i < |s.threads| && i != u ==> s'.threads[i] == s.threads[i]
    requires s'.threads[u].op == s.threads[u].op && s'.threads[u].node == s.threads[u].node
    requires s'.nodes == s.nodes[y := nd]
    requires nd == s.nodes[y].(control := nd.control, addr := nd.addr, offer := nd.offer)
    requires nd.offer < |s.env| && nd.use.Used?
    ensures NodeOK(s', y)
  {
    forall j | 0 <= j < SLOTS ensures SlotOK(s', y, j) { assert SlotOK(s, y, j); }
  }

  /** A step of a call that changes the own node, but not its slots. */
  lemma NodeCall(s: State, s': State, u: nat, th: Thread, y: nat, nd: Node)
    requires Inv(s) && u < |s.threads| && InCall(s.threads[u].call) && s.threads[u].node == y < |s.nodes|
    requires s' == SetNode(s, y, nd).(threads := s.threads[u := th], nextTxn := s'.nextTxn) && s.nextTxn <= s'.nextTxn
    requires Suspended(s, s', u)
    requires nd == s.nodes[y].(control := nd.control, addr := nd.addr, offer := nd.offer)
    requires Advances(s.threads[u], th) && SameGuards(s.threads[u].call, th.call, |s.guards|)
    requires Envelope(s', y) == Envelope(s, y) && nd.offer < |s.env|
    requires NodeFrame(s, s', u, y) && CallInOrder(s', u)
    requires forall p :: CallOwns(th.call, p) + NodeHolds(nd, p) == CallOwns(s.threads[u].call, p) + NodeHolds(s.nodes[y], p)
    ensures Inv(s')
  {
    assert ThreadOK(s, u) && NodeOK(s, y);
    SuspendedThread(s, s', u);
    SameWriter(s, s', u);
    SameCells(s, s', u);
    SameSlots(s, s', u, y, nd);
    PlainStep(s, s', u, |s.guards|, y);
    NodeEnvelopes(s, s', u, y);
    NodeBalance(s, s', u, th, y, nd);
    Commit(s, s', u, |s.guards|, y);
  }

  // ---------------------------------------------------------------------------------------------
  // Paying a debt slot

  /** The slot that a successful `Debt::pay` empties. */
  lemma SettledNode(s: State, s': State, n: nat, j: nat, x: nat)
    requires n < |s.nodes| && NodeOK(s, n) && j < SLOTS && s.nodes[n].slots[j].Owes? && SlotOK(s, n, j)
    requires |s'.threads| == |s.threads| && |s'.env| == |s.env| && |s'.guards| == |s.guards|
    requires s'.nodes == Settle(s, n, j).nodes
    requires forall g :: 0 <= g < |s.guards| && g != x && g != s.nodes[n].slots[j].who ==> s'.guards[g] == s.guards[g]
    requires x < |s.guards| ==> s.guards[x].debt == At(n, j)
    requires forall i :: 0 <= i < |s.threads| ==>
      && s'.threads[i].node == s.threads[i].node
      && (InsideOf(s.threads[i].op, s.threads[i].node, n) ==> InsideOf(s'.threads[i].op, s'.threads[i].node, n))
    ensures NodeOK(s', n)
  {
    forall i | 0 <= i < SLOTS ensures SlotOK(s', n, i) { assert SlotOK(s, n, i); }
  }

  /** Every other guard is kept: one of them may just have been paid. */
  lemma SettledKept(s: State, s': State, n: nat, j: nat, x: nat)
    requires n < |s.nodes| && NodeOK(s, n) && j < SLOTS && s.nodes[n].slots[j].Owes? && SlotOK(s, n, j)
    requires forall g :: 0 <= g < |s.guards| ==> GuardOK(s, g)
    requires |s'.guards| == |s.guards| && s'.nodes == Settle(s, n, j).nodes
    requires forall g :: 0 <= g < |s.guards| && g != x ==> s'.guards[g] == Settle(s, n, j).guards[g]
    ensures forall g :: 0 <= g < |s.guards| && g != x ==> Kept(s, s', g)
  {
    forall g | 0 <= g < |s.guards| && g != x ensures Kept(s, s', g) { assert GuardOK(s, g); }
  }

  lemma SettledFrame(s: State, s': State, u: nat, n: nat, j: nat)
    requires n < |s.nodes| && j < |s.nodes[n].slots| && u < |s.threads| && u < |s'.threads|
    requires s.nodes[n].slots[j].Owes? && s.nodes[n].slots[j].who < |s.guards|
    requires s'.nodes == Settle(s, n, j).nodes
    ensures NodeFrame(s, s', u, n)
  {
  }

  lemma SettledEnvelopes(s: State, s': State, u: nat, n: nat, j: nat)
    requires EnvelopesOK(s) && u < |s.threads| == |s'.threads|
    requires n < |s.nodes| && j < |s.nodes[n].slots| && s.nodes[n].slots[j].Owes? && s.nodes[n].slots[j].who < |s.guards|
    requires s'.nodes == Settle(s, n, j).nodes
    requires forall i :: 0 <= i < |s.threads| && i != u ==> s'.threads[i] == s.threads[i]
    requires Tag(s'.threads[u]) == Tag(s.threads[u]) && Storing(s'.threads[u]) == Storing(s.threads[u])
    ensures EnvelopesOK(s')
  {
    forall m | 0 <= m < |s.nodes| ensures Envelope(s', m) == Envelope(s, m) {}
    SameEnvelopes(s, s');
  }

  lemma PayBackBalance(s: State, s': State, u: nat, c: Call, x: nat, gd: Guard)
    requires Balanced(s) && Shape(s) && u < |s.threads| && x < |s.guards| && GuardOK(s, x) && GuardShape(s, x)
    requires !s.guards[x].status.Gone? && s.guards[x].debt.At? && NodeOK(s, s.guards[x].debt.node)
    requires NodeShape(s, s.guards[x].debt.node)
    requires Hits(s, s.guards[x].debt.node, s.guards[x].debt.slot, s.guards[x].ptr)
    requires s' == SetCall(PayBack(s, x, gd), u, c)
    requires forall p :: GuardHolds(gd, p) + CallOwns(c, p) == CallOwns(s.threads[u].call, p)
    ensures Balanced(s')
  {
    var n, j := s.guards[x].debt.node, s.guards[x].debt.slot;
    assert SlotOK(s, n, j);
    var m := Settle(s, n, j);
    forall p ensures s'.refs[p] == Owned(s', p) {
      assert s.refs[p] == Owned(s, p);
      SettleSum(s, n, j, p);
      GuardSum(m.guards, x, gd, p);
      ThreadSum(s.threads, u, s'.threads[u], p);
    }
  }

  /** A step that settles slot `j` of node `n`, and otherwise changes only thread `u` and guard `x`. */
  lemma SettleStep(s: State, s': State, u: nat, n: nat, j: nat, x: nat)
    requires Inv(s) && u < |s.threads| == |s'.threads| && n < |s.nodes| && NodeOK(s, n)
    requires j < SLOTS && s.nodes[n].slots[j].Owes? && SlotOK(s, n, j)
    requires s'.nodes == Settle(s, n, j).nodes && |s'.guards| == |s.guards|
    requires forall g :: 0 <= g < |s.guards| && g != x ==> s'.guards[g] == Settle(s, n, j).guards[g]
    requires forall i :: 0 <= i < |s.threads| && i != u ==> s'.threads[i] == s.threads[i]
    requires s'.cells == s.cells && s'.env == s.env && s'.head == s.head && s'.nextTxn == s.nextTxn
    requires Advances(s.threads[u], s'.threads[u]) && SameHands(s.threads[u], s'.threads[u], x)
    requires SamePlace(s.threads[u], s'.threads[u], |s.nodes|) && s'.threads[u].node == s.threads[u].node
    requires x < |s.guards| ==>
      && (s.guards[x].status == Pending(u) || s.guards[x].status == Held(u))
      && s.guards[x].debt == At(n, j) && GuardOK(s', x)
    requires WriterFrame(s, s', u)
    ensures Step(s, s', u, x, n)
  {
    SameCells(s, s', u);
    SettledNode(s, s', n, j, x);
    SettledKept(s, s', n, j, x);
    SettledFrame(s, s', u, n, j);
    MineStable(s, s', u, x);
    PlaceStable(s, s', u, |s.nodes|);
  }

  /** A step of a call that pays its own debt back. */
  lemma PayCall(s: State, s': State, u: nat, c: Call, x: nat, gd: Guard)
    requires Inv(s) && Ready(s, u) && InCall(s.threads[u].call) && Mine(s, u, x)
    requires GuardShape(s, x) && s.guards[x].debt.At? && NodeShape(s, s.guards[x].debt.node)
    requires Hits(s, s.guards[x].debt.node, s.guards[x].debt.slot, s.guards[x].ptr)
    requires s' == SetCall(PayBack(s, x, gd), u, c)
    requires Suspended(s, s', u)
    requires Advances(s.threads[u], s'.threads[u]) && SameGuards(s.threads[u].call, c, x)
    requires Tag(s'.threads[u]) == Tag(s.threads[u])
    requires CallInOrder(s', u) && GuardOK(s', x)
    requires forall p :: GuardHolds(gd, p) + CallOwns(c, p) == CallOwns(s.threads[u].call, p)
    ensures Inv(s')
  {
    var n, j := s.guards[x].debt.node, s.guards[x].debt.slot;
    assert GuardOK(s, x) && NodeOK(s, n) && SlotOK(s, n, j);
    SuspendedThread(s, s', u);
    PayCallStep(s, s', u, c, x, gd);
    PayBackBalance(s, s', u, c, x, gd);
    Commit(s, s', u, x, n);
  }

  lemma PayCallStep(s: State, s': State, u: nat, c: Call, x: nat, gd: Guard)
    requires Inv(s) && Ready(s, u) && Mine(s, u, x) && GuardOK(s, x)
    requires GuardShape(s, x) && s.guards[x].debt.At? && NodeShape(s, s.guards[x].debt.node)
    requires Hits(s, s.guards[x].debt.node, s.guards[x].debt.slot, s.guards[x].ptr)
    requires s' == SetCall(PayBack(s, x, gd), u, c)
    requires Advances(s.threads[u], s'.threads[u]) && SameGuards(s.threads[u].call, c, x)
    requires Tag(s'.threads[u]) == Tag(s.threads[u]) && GuardOK(s', x)
    ensures Step(s, s', u, x, s.guards[x].debt.node) && EnvelopesOK(s')
  {
    var n, j := s.guards[x].debt.node, s.guards[x].debt.slot;
    assert NodeOK(s, n) && SlotOK(s, n, j);
    SameWriter(s, s', u);
    SettleStep(s, s', u, n, j, x);
    SettledEnvelopes(s, s', u, n, j);
  }

  // ---------------------------------------------------------------------------------------------
  // Publishing a debt

  lemma BorrowedNode(s: State, s': State, u: nat, j: nat, p: Ptr, src: nat)
    requires Ready(s, u) && 0 <= s.threads[u].node && j < SLOTS && NodeOK(s, s.threads[u].node)
    requires s'.nodes == Borrow(s, u, j, p, src).nodes && s'.guards == Borrow(s, u, j, p, src).guards
    requires |s'.threads| == |s.threads| && |s'.env| == |s.env|
    requires forall i :: 0 <= i < |s.threads| ==> s'.threads[i].node == s.threads[i].node && s'.threads[i].op == s.threads[i].op
    requires s.nodes[s.threads[u].node].use == Used(u)
    ensures NodeOK(s', s.threads[u].node) && NodeFrame(s, s', u, s.threads[u].node)
  {
    var n := s.threads[u].node;
    forall i | 0 <= i < SLOTS ensures SlotOK(s', n, i) { assert SlotOK(s, n, i); }
  }

  lemma BorrowedKept(s: State, s': State, u: nat, j: nat, p: Ptr, src: nat)
    requires Ready(s, u) && 0 <= s.threads[u].node && j < SLOTS && s.nodes[s.threads[u].node].slots[j].Free?
    requires forall g :: 0 <= g < |s.guards| ==> GuardOK(s, g)
    requires s'.nodes == Borrow(s, u, j, p, src).nodes && s'.guards == Borrow(s, u, j, p, src).guards
    ensures forall g :: 0 <= g < |s.guards| ==> Kept(s, s', g)
  {
    forall g | 0 <= g < |s.guards| ensures Kept(s, s', g) { assert GuardOK(s, g); }
  }

  lemma BorrowBalance(s: State, s': State, u: nat, th: Thread, j: nat, p: Ptr, src: nat)
    requires Ready(s, u) && Balanced(s) && 0 <= s.threads[u].node && j < SLOTS
    requires s' == Borrow(s, u, j, p, src).(threads := s.threads[u := th])
    requires th.op == s.threads[u].op && forall q :: CallOwns(th.call, q) == CallOwns(s.threads[u].call, q)
    ensures Balanced(s')
  {
    var n := s.threads[u].node;
    forall q ensures s'.refs[q] == Owned(s', q) {
      assert s.refs[q] == Owned(s, q);
      ThreadSum(s.threads, u, th, q);
      GuardAppend(s.guards, Guard(p, At(n, j), false, src, Pending(u)), q);
      NodeSum(s.nodes, n, s'.nodes[n], q);
    }
  }

  lemma BorrowStep(s: State, s': State, u: nat, th: Thread, j: nat, p: Ptr, src: nat)
    requires Inv(s) && Ready(s, u) && 0 <= s.threads[u].node && ThreadOK(s, u)
    requires j < SLOTS && s.nodes[s.threads[u].node].slots[j].Free?
    requires s' == Borrow(s, u, j, p, src).(threads := s.threads[u := th])
    requires th.op == s.threads[u].op && th.node == s.threads[u].node
    requires Advances(s.threads[u], th) && SameGuards(s.threads[u].call, th.call, |s.guards|)
    requires CallPends(th.call, |s.guards|) && (j == HELPING ==> OnHelping(th.call, |s.guards|))
    ensures Step(s, s', u, |s.guards|, s.threads[u].node)
  {
    var n := s.threads[u].node;
    assert NodeOK(s, n);
    SameWriter(s, s', u);
    SameCells(s, s', u);
    BorrowedNode(s, s', u, j, p, src);
    BorrowedKept(s, s', u, j, p, src);
    MineStable(s, s', u, |s.guards|);
    PlaceStable(s, s', u, n);
  }

  /** A step of a call that publishes a debt in a free slot of the own node. */
  lemma BorrowCall(s: State, s': State, u: nat, th: Thread, j: nat, p: Ptr, src: nat)
    requires Inv(s) && Ready(s, u) && 0 <= s.threads[u].node && InCall(s.threads[u].call)
    requires j < SLOTS && s.nodes[s.threads[u].node].slots[j].Free?
    requires s' == Borrow(s, u, j, p, src).(threads := s.threads[u := th])
    requires Suspended(s, s', u)
    requires Advances(s.threads[u], th) && SameGuards(s.threads[u].call, th.call, |s.guards|)
    requires CallPends(th.call, |s.guards|) && (j == HELPING ==> OnHelping(th.call, |s.guards|))
    requires Envelope(s', s.threads[u].node) == Envelope(s, s.threads[u].node)
    requires CallInOrder(s', u)
    requires forall q :: CallOwns(th.call, q) == CallOwns(s.threads[u].call, q)
    ensures Inv(s')
  {
    var n := s.threads[u].node;
    assert NodeOK(s, n) && ThreadOK(s, u);
    BorrowRest(s, s', u, th, j, p, src);
    BorrowStep(s, s', u, th, j, p, src);
    BorrowBalance(s, s', u, th, j, p, src);
    Commit(s, s', u, |s.guards|, n);
  }

  lemma BorrowRest(s: State, s': State, u: nat, th: Thread, j: nat, p: Ptr, src: nat)
    requires Inv(s) && Ready(s, u) && 0 <= s.threads[u].node && InCall(s.threads[u].call) && ThreadOK(s, u)
    requires j < SLOTS && s' == Borrow(s, u, j, p, src).(threads := s.threads[u := th])
    requires Suspended(s, s', u) && CallInOrder(s', u)
    requires Envelope(s', s.threads[u].node) == Envelope(s, s.threads[u].node)
    ensures ThreadOK(s', u) && EnvelopesOK(s')
  {
    SuspendedThread(s, s', u);
    NodeEnvelopes(s, s', u, s.threads[u].node);
  }
}
