/** Every access of `Debt::pay_all` and `Slots::help` preserves the invariant. */
module SweepProofs {
  import opened Protocol
  import opened Steps
  import opened Invariant
  import opened Counting
  import opened Rely
  import opened Moves
  import opened CallMoves
  import opened CallProofs

  /** Thread `t` sweeps, outside a nested load. */
  predicate Sweeps(s: State, t: nat) {
    t < |s.threads| && s.threads[t].op.Sweeping? && s.threads[t].call.NoCall?
  }

  /** `b` will still do everything that `a` would, up to node `n`. */
  ghost predicate Mono(a: Pc, b: Pc, top: nat) {
    && (forall n: nat :: n < top && WillHelp(a, n) ==> WillHelp(b, n))
    && (forall n: nat, j: nat :: n < top && j < SLOTS && WillPay(a, n, j) ==> WillPay(b, n, j))
  }

  lemma MonoWriter(s: State, s': State, t: nat, pc: Pc)
    requires Sweeps(s, t) && t < |s'.threads| && s'.threads[t].op == Sweeping(s.threads[t].op.job, pc)
    requires Mono(s.threads[t].op.pc, pc, |s'.nodes|)
    requires forall n :: 0 <= n < |s'.nodes| ==> |s'.nodes[n].slots| == SLOTS
    ensures WriterFrame(s, s', t)
  {
    forall n | 0 <= n < |s'.nodes| ensures HelpFrame(s, s', t, n) {}
    forall n, j | 0 <= n < |s'.nodes| && 0 <= j < |s'.nodes[n].slots| ensures PassFrame(s, s', t, n, j) {}
  }

  lemma MonoBarrier(s: State, s': State, t: nat, pc: Pc)
    requires Sweeps(s, t) && BarrierOK(s, t)
    requires t < |s'.threads| && s'.threads[t].op == Sweeping(s.threads[t].op.job, pc) && |s'.nodes| == |s.nodes|
    requires forall n: nat :: n < |s.nodes| && WillHelp(s.threads[t].op.pc, n) ==> WillHelp(pc, n)
    requires forall n :: 0 <= n < |s.nodes| ==> s'.nodes[n].control == s.nodes[n].control && s'.nodes[n].addr == s.nodes[n].addr
    ensures BarrierOK(s', t)
  {
    forall n | 0 <= n < |s'.nodes| && !WillHelp(pc, n) ensures Passed(s', s'.threads[t].op.job, n) {
      assert Passed(s, s.threads[t].op.job, n);
    }
  }

  lemma AllSlots(s: State)
    requires Inv(s)
    ensures forall n :: 0 <= n < |s.nodes| ==> |s.nodes[n].slots| == SLOTS
  {
    forall n | 0 <= n < |s.nodes| ensures |s.nodes[n].slots| == SLOTS { assert NodeOK(s, n); }
  }

  /** What remains to be shown of a sweeping thread. */
  lemma SweepThread(s: State, s': State, t: nat, pc: Pc)
    requires Sweeps(s, t) && ThreadOK(s, t) && !pc.HLoad?
    requires |s'.threads| == |s.threads| && s'.threads[t] == s.threads[t].(op := Sweeping(s.threads[t].op.job, pc))
    requires |s'.nodes| == |s.nodes|
    requires 0 <= s.threads[t].node ==>
      && s'.nodes[s.threads[t].node].use == s.nodes[s.threads[t].node].use
      && s'.nodes[s.threads[t].node].control == s.nodes[s.threads[t].node].control
    requires OpOK(s', t) && ObsOK(s', t) && BarrierOK(s', t)
    ensures ThreadOK(s', t)
  {
  }

  ghost predicate StaysPut(a: Pc, b: Pc) {
    Counted(a) ==> Counted(b) && Place(a) == Place(b)
  }

  /** A step of a sweep that changes nothing shared but a reference count. */
  lemma QuietSweep(s: State, s': State, t: nat, pc: Pc)
    requires Inv(s) && Sweeps(s, t) && s' == SetPc(s, t, pc).(refs := s'.refs)
    requires !pc.HLoad? && !pc.HStore? && !s.threads[t].op.pc.HStore? && StaysPut(s.threads[t].op.pc, pc)
    requires WriterFrame(s, s', t) && ThreadOK(s', t)
    requires forall p :: s'.refs[p] - PcOwns(pc, s.threads[t].op.job.out, p) ==
                         s.refs[p] - PcOwns(s.threads[t].op.pc, s.threads[t].op.job.out, p)
    ensures Inv(s')
  {
    assert ThreadOK(s, t);
    QuietStep(s, s', t, s'.threads[t]);
  }

  lemma PrepayOK(s: State, t: nat)
    requires Inv(s) && Sweeps(s, t) && s.threads[t].op.pc.Prepay?
    ensures Ready(s, t) && Inv(DoPrepay(s, t))
  {
    Unfold(s, t);
    AllSlots(s);
    var s' := DoPrepay(s, t);
    MonoWriter(s, s', t, Head);
    MonoBarrier(s, s', t, Head);
    SweepThread(s, s', t, Head);
    QuietSweep(s, s', t, Head);
  }

  lemma HeadOK(s: State, t: nat)
    requires Inv(s) && Sweeps(s, t) && s.threads[t].op.pc.Head?
    ensures Ready(s, t) && Inv(DoHead(s, t))
  {
    Unfold(s, t);
    AllSlots(s);
    var s' := DoHead(s, t);
    var pc := s'.threads[t].op.pc;
    MonoWriter(s, s', t, pc);
    MonoBarrier(s, s', t, pc);
    SweepThread(s, s', t, pc);
    QuietSweep(s, s', t, pc);
  }

  lemma FinishOK(s: State, t: nat)
    requires Inv(s) && Sweeps(s, t) && s.threads[t].op.pc.Finish?
    ensures Ready(s, t) && Inv(DoFinish(s, t))
  {
    Unfold(s, t);
    AllSlots(s);
    var s' := DoFinish(s, t);
    ThreadAlive(s, t, s.threads[t].op.job.out);
    MonoWriter(s, s', t, Swept);
    MonoBarrier(s, s', t, Swept);
    SweepThread(s, s', t, Swept);
    QuietSweep(s, s', t, Swept);
  }

  lemma PayIncOK(s: State, t: nat)
    requires Inv(s) && Sweeps(s, t) && s.threads[t].op.pc.PayInc?
    ensures Ready(s, t) && Inv(DoPayInc(s, t))
  {
    Unfold(s, t);
    AllSlots(s);
    var s' := DoPayInc(s, t);
    var pc := s'.threads[t].op.pc;
    MonoWriter(s, s', t, pc);
    MonoBarrier(s, s', t, pc);
    SweepThread(s, s', t, pc);
    QuietSweep(s, s', t, pc);
  }

  // ---------------------------------------------------------------------------------------------
  // The slots

  /** The slot does not owe our pointer: pass on. */
  lemma PayMissWriter(s: State, s': State, t: nat)
    requires Ready(s, t) && Sweeps(s, t) && s.threads[t].op.pc.Pay? && s' == DoPay(s, t)
    requires NodeShape(s, s.threads[t].op.pc.n)
    requires !Hits(s, s.threads[t].op.pc.n, s.threads[t].op.pc.i, s.threads[t].op.job.out)
    requires forall n :: 0 <= n < |s.nodes| ==> |s.nodes[n].slots| == SLOTS
    ensures WriterFrame(s, s', t)
  {
    forall n | 0 <= n < |s'.nodes| ensures HelpFrame(s, s', t, n) {}
    forall n, j | 0 <= n < |s'.nodes| && 0 <= j < |s'.nodes[n].slots| ensures PassFrame(s, s', t, n, j) {}
  }

  lemma PayMiss(s: State, t: nat)
    requires Inv(s) && Sweeps(s, t) && Ready(s, t) && s.threads[t].op.pc.Pay? && NodeShape(s, s.threads[t].op.pc.n)
    requires !Hits(s, s.threads[t].op.pc.n, s.threads[t].op.pc.i, s.threads[t].op.job.out)
    ensures Inv(DoPay(s, t))
  {
    Unfold(s, t);
    AllSlots(s);
    var s' := DoPay(s, t);
    var pc := s'.threads[t].op.pc;
    PayMissWriter(s, s', t);
    MonoBarrier(s, s', t, pc);
    SweepThread(s, s', t, pc);
    QuietSweep(s, s', t, pc);
  }

  lemma PayHitWriter(s: State, s': State, t: nat)
    requires Ready(s, t) && Sweeps(s, t) && s.threads[t].op.pc.Pay? && s' == DoPay(s, t)
    requires NodeShape(s, s.threads[t].op.pc.n)
    requires Hits(s, s.threads[t].op.pc.n, s.threads[t].op.pc.i, s.threads[t].op.job.out)
    requires forall n :: 0 <= n < |s.nodes| ==> |s.nodes[n].slots| == SLOTS
    ensures WriterFrame(s, s', t)
  {
    forall n | 0 <= n < |s'.nodes| ensures HelpFrame(s, s', t, n) {}
    forall n, j | 0 <= n < |s'.nodes| && 0 <= j < |s'.nodes[n].slots| ensures PassFrame(s, s', t, n, j) {}
  }

  lemma PayHitThread(s: State, s': State, t: nat)
    requires Ready(s, t) && Sweeps(s, t) && s.threads[t].op.pc.Pay? && s' == DoPay(s, t) && ThreadOK(s, t)
    requires NodeShape(s, s.threads[t].op.pc.n)
    requires Hits(s, s.threads[t].op.pc.n, s.threads[t].op.pc.i, s.threads[t].op.job.out)
    ensures ThreadOK(s', t)
  {
    var pc := s'.threads[t].op.pc;
    MonoBarrier(s, s', t, pc);
    SweepThread(s, s', t, pc);
  }

  /** The pre-paid reference goes to the guard. */
  lemma PayHitBalance(s: State, s': State, t: nat)
    requires Ready(s, t) && Sweeps(s, t) && s.threads[t].op.pc.Pay? && s' == DoPay(s, t) && Balanced(s)
    requires NodeShape(s, s.threads[t].op.pc.n) && SlotOK(s, s.threads[t].op.pc.n, s.threads[t].op.pc.i)
    requires Hits(s, s.threads[t].op.pc.n, s.threads[t].op.pc.i, s.threads[t].op.job.out)
    ensures Balanced(s')
  {
    var n, i := s.threads[t].op.pc.n, s.threads[t].op.pc.i;
    var m := Settle(s, n, i);
    var th := s.threads[t].(op := Sweeping(s.threads[t].op.job, PayInc(n, i)));
    assert s' == m.(threads := s.threads[t := th]);
    forall p ensures s'.refs[p] == Owned(s', p) {
      assert s.refs[p] == Owned(s, p);
      SettleSum(s, n, i, p);
      ThreadSum(s.threads, t, th, p);
    }
  }

  lemma PayHitStep(s: State, s': State, t: nat)
    requires Inv(s) && Ready(s, t) && Sweeps(s, t) && s.threads[t].op.pc.Pay? && s' == DoPay(s, t)
    requires NodeShape(s, s.threads[t].op.pc.n)
    requires Hits(s, s.threads[t].op.pc.n, s.threads[t].op.pc.i, s.threads[t].op.job.out)
    ensures Step(s, s', t, |s.guards|, s.threads[t].op.pc.n) && EnvelopesOK(s')
  {
    var Pay(n, i) := s.threads[t].op.pc;
    assert NodeOK(s, n) && SlotOK(s, n, i);
    AllSlots(s);
    PayHitWriter(s, s', t);
    SettleStep(s, s', t, n, i, |s.guards|);
    SettledEnvelopes(s, s', t, n, i);
  }

  lemma PayHit(s: State, t: nat)
    requires Inv(s) && Sweeps(s, t) && Ready(s, t) && s.threads[t].op.pc.Pay? && NodeShape(s, s.threads[t].op.pc.n)
    requires Hits(s, s.threads[t].op.pc.n, s.threads[t].op.pc.i, s.threads[t].op.job.out)
    ensures Inv(DoPay(s, t))
  {
    var Pay(n, i) := s.threads[t].op.pc;
    assert ThreadOK(s, t) && NodeOK(s, n) && SlotOK(s, n, i);
    var s' := DoPay(s, t);
    PayHitThread(s, s', t);
    PayHitStep(s, s', t);
    PayHitBalance(s, s', t);
    Commit(s, s', t, |s.guards|, n);
  }

  // ---------------------------------------------------------------------------------------------
  // Entering and leaving a node

  /** Only the writer count of node `n` changes, and only by thread `t`. */
  ghost predicate CountsOnly(s: State, s': State, t: nat, n: nat) {
    && n < |s.nodes| && t < |s.threads|
    && |s'.threads| == |s.threads| && s' == s.(nodes := s'.nodes, threads := s.threads[t := s'.threads[t]])
    && |s'.nodes| == |s.nodes| && (forall m :: 0 <= m < |s.nodes| && m != n ==> s'.nodes[m] == s.nodes[m])
    && s'.nodes[n] == s.nodes[n].(writers := s'.nodes[n].writers, inside := s'.nodes[n].inside)
    && (forall i :: i != t ==> (i in s'.nodes[n].inside <==> i in s.nodes[n].inside))
    && (t in s'.nodes[n].inside <==> InsideOf(s'.threads[t].op, s'.threads[t].node, n))
    && s'.nodes[n].writers == |s'.nodes[n].inside|
    && s'.threads[t].node == s.threads[t].node && s'.threads[t].call == s.threads[t].call
  }

  lemma CountsNode(s: State, s': State, t: nat, n: nat)
    requires CountsOnly(s, s', t, n) && NodeOK(s, n)
    ensures NodeOK(s', n) && NodeFrame(s, s', t, n)
  {
    forall j | 0 <= j < SLOTS ensures SlotOK(s', n, j) { assert SlotOK(s, n, j); }
  }

  lemma CountsBalance(s: State, s': State, t: nat, n: nat)
    requires CountsOnly(s, s', t, n) && Balanced(s) && s'.refs == s.refs && s'.handles == s.handles
    requires forall p :: ThreadOwns(s'.threads[t], p) == ThreadOwns(s.threads[t], p)
    ensures Balanced(s')
  {
    forall p ensures s'.refs[p] == Owned(s', p) {
      assert s.refs[p] == Owned(s, p);
      ThreadSum(s.threads, t, s'.threads[t], p);
      assert s'.nodes == s.nodes[n := s'.nodes[n]];
      NodeSum(s.nodes, n, s'.nodes[n], p);
    }
  }

  lemma CountsEnvelopes(s: State, s': State, t: nat, n: nat)
    requires CountsOnly(s, s', t, n) && EnvelopesOK(s)
    requires Tag(s'.threads[t]) == Tag(s.threads[t]) && Storing(s'.threads[t]) == Storing(s.threads[t])
    ensures EnvelopesOK(s')
  {
    forall m | 0 <= m < |s.nodes| ensures Envelope(s', m) == Envelope(s, m) {}
    SameEnvelopes(s, s');
  }

  lemma CountsStep(s: State, s': State, t: nat, n: nat)
    requires Inv(s) && CountsOnly(s, s', t, n)
    requires Advances(s.threads[t], s'.threads[t]) && SameHands(s.threads[t], s'.threads[t], |s.guards|)
    requires SamePlace(s.threads[t], s'.threads[t], n)
    requires WriterFrame(s, s', t)
    ensures Step(s, s', t, |s.guards|, n)
  {
    assert NodeOK(s, n);
    CountsNode(s, s', t, n);
    SameCells(s, s', t);
    PlainStep(s, s', t, |s.guards|, n);
  }

  lemma CountsDone(s: State, s': State, t: nat, n: nat)
    requires Inv(s) && CountsOnly(s, s', t, n) && ThreadOK(s', t)
    requires Advances(s.threads[t], s'.threads[t]) && SameHands(s.threads[t], s'.threads[t], |s.guards|)
    requires SamePlace(s.threads[t], s'.threads[t], n) && WriterFrame(s, s', t)
    requires Tag(s'.threads[t]) == Tag(s.threads[t]) && Storing(s'.threads[t]) == Storing(s.threads[t])
    requires forall p :: ThreadOwns(s'.threads[t], p) == ThreadOwns(s.threads[t], p)
    ensures Inv(s')
  {
    CountsStep(s, s', t, n);
    CountsEnvelopes(s, s', t, n);
    CountsBalance(s, s', t, n);
    Commit(s, s', t, |s.guards|, n);
  }

  lemma ReserveShape(s: State, t: nat)
    requires Inv(s) && Ready(s, t) && Sweeps(s, t) && s.threads[t].op.pc.Reserve?
    ensures CountsOnly(s, DoReserve(s, t), t, s.threads[t].op.pc.n)
  {
    assert NodeOK(s, s.threads[t].op.pc.n);
  }

  lemma ReserveThread(s: State, s': State, t: nat)
    requires Ready(s, t) && Sweeps(s, t) && s.threads[t].op.pc.Reserve? && ThreadOK(s, t) && s' == DoReserve(s, t)
    ensures ThreadOK(s', t)
  {
    var pc := s'.threads[t].op.pc;
    MonoBarrier(s, s', t, pc);
    SweepThread(s, s', t, pc);
  }

  lemma ReserveOK(s: State, t: nat)
    requires Inv(s) && Sweeps(s, t) && s.threads[t].op.pc.Reserve?
    ensures Ready(s, t) && Inv(DoReserve(s, t))
  {
    Unfold(s, t);
    var n := s.threads[t].op.pc.n;
    var s' := DoReserve(s, t);
    AllSlots(s);
    ReserveShape(s, t);
    ReserveThread(s, s', t);
    MonoWriter(s, s', t, HRead(n));
    CountsDone(s, s', t, n);
  }

  lemma ReleaseShape(s: State, t: nat)
    requires Inv(s) && Ready(s, t) && Sweeps(s, t) && s.threads[t].op.pc.Release? && ThreadOK(s, t)
    ensures CountsOnly(s, DoRelease(s, t), t, s.threads[t].op.pc.n)
    ensures s.nodes[s.threads[t].op.pc.n].next == s.threads[t].op.pc.n - 1
  {
    var n := s.threads[t].op.pc.n;
    assert NodeOK(s, n);
    assert InsideOf(s.threads[t].op, s.threads[t].node, n);
    assert t in s.nodes[n].inside;
  }

  lemma ReleaseThread(s: State, s': State, t: nat)
    requires Ready(s, t) && Sweeps(s, t) && s.threads[t].op.pc.Release? && ThreadOK(s, t) && s' == DoRelease(s, t)
    requires s.nodes[s.threads[t].op.pc.n].next == s.threads[t].op.pc.n - 1
    ensures ThreadOK(s', t)
  {
    var pc := s'.threads[t].op.pc;
    MonoBarrier(s, s', t, pc);
    SweepThread(s, s', t, pc);
  }

  lemma ReleaseOK(s: State, t: nat)
    requires Inv(s) && Sweeps(s, t) && s.threads[t].op.pc.Release?
    ensures Ready(s, t) && Inv(DoRelease(s, t))
  {
    Unfold(s, t);
    var n := s.threads[t].op.pc.n;
    var s' := DoRelease(s, t);
    AllSlots(s);
    ReleaseShape(s, t);
    ReleaseThread(s, s', t);
    MonoWriter(s, s', t, s'.threads[t].op.pc);
    CountsDone(s, s', t, n);
  }

  // ---------------------------------------------------------------------------------------------
  // Looking at the control

  /** What a generation in the control of `n` says about its owner. */
  lemma OpenTransaction(s: State, n: nat)
    requires Inv(s) && n < |s.nodes| && s.nodes[n].control.Gen?
    ensures s.nodes[n].use.Used? && s.nodes[n].use.owner < |s.threads|
    ensures var th := s.threads[s.nodes[n].use.owner];
      && th.node == n && Published(th.call) && s.nodes[n].control == Gen(th.gen, th.call.x)
      && th.call.x < s.nextTxn
      && s.nodes[n].addr == th.call.ask.cell && IsLive(s, th.call.ask.cell)
      && th.call.ask.since < |s.cells[th.call.ask.cell].hist|
  {
    assert NodeOK(s, n);
    if s.nodes[n].use.Used? { assert ThreadOK(s, s.nodes[n].use.owner); }
  }

  ghost predicate GoodLook(s: State, t: nat, n: nat, o: Obs)
    requires t < |s.threads| && n < |s.nodes| && s.threads[t].op.Sweeping? && s.threads[t].op.job.cell < |s.cells|
  {
    var c := s.threads[t].op.job.cell;
    && o.n == n && n != s.threads[t].node && o.txn < s.nextTxn && o.since < |s.cells[c].hist|
    && GenOK(s, o) && TxnOK(s, s.threads[t].op.job, HAddr(o), o)
    && (s.cells[c].live || s.nodes[n].addr != c)
  }

  /** A fresh look is a true observation. */
  lemma LookOK(s: State, t: nat, n: nat)
    requires Inv(s) && t < |s.threads| && n < |s.nodes| && s.nodes[n].control.Gen?
    requires s.threads[t].op.Sweeping? && s.threads[t].call.NoCall?
    ensures s.threads[t].op.job.cell < |s.cells| && LookAt(s, s.threads[t].op.job.cell, n).Busy?
    ensures GoodLook(s, t, n, LookAt(s, s.threads[t].op.job.cell, n).o)
  {
    OpenTransaction(s, n);
    assert ThreadOK(s, t);
    var c := s.threads[t].op.job.cell;
    assert CellOK(s, c);
  }

  lemma HReadWriter(s: State, s': State, t: nat, n: nat, pc: Pc)
    requires Sweeps(s, t) && AtNode(s.threads[t].op.pc) && Place(s.threads[t].op.pc) == n
    requires t < |s'.threads| && s'.threads[t].op == Sweeping(s.threads[t].op.job, pc) && s'.nodes == s.nodes
    requires n < |s.nodes| && (forall m :: 0 <= m < |s.nodes| ==> |s.nodes[m].slots| == SLOTS)
    requires s.threads[t].op.pc.HRead? || HasObs(s.threads[t].op.pc)
    requires pc == Pay(n, 0) || (pc.HDrop? && pc.n == n && pc.look.Quiet?)
    requires s.nodes[n].control.Gen? ==> s.nodes[n].addr != s.threads[t].op.job.cell
    requires s.threads[t].op.pc.HDrop? ==> s.threads[t].op.pc.look.o.n == n
    ensures WriterFrame(s, s', t)
  {
    forall m | 0 <= m < |s'.nodes| ensures HelpFrame(s, s', t, m) {}
    forall m, j | 0 <= m < |s'.nodes| && 0 <= j < |s'.nodes[m].slots| ensures PassFrame(s, s', t, m, j) {}
  }

  lemma HReadBarrier(s: State, s': State, t: nat, n: nat, pc: Pc)
    requires Sweeps(s, t) && BarrierOK(s, t) && AtNode(s.threads[t].op.pc) && Place(s.threads[t].op.pc) == n
    requires t < |s'.threads| && s'.threads[t].op == Sweeping(s.threads[t].op.job, pc) && s'.nodes == s.nodes
    requires n < |s.nodes|
    requires s.threads[t].op.pc.HRead? || HasObs(s.threads[t].op.pc)
    requires pc == Pay(n, 0) || (pc.HDrop? && pc.n == n && pc.look.Quiet?)
    requires s.nodes[n].control.Gen? ==> s.nodes[n].addr != s.threads[t].op.job.cell
    requires s.threads[t].op.pc.HDrop? ==> s.threads[t].op.pc.look.o.n == n
    ensures BarrierOK(s', t)
  {
    forall m | 0 <= m < |s'.nodes| && !WillHelp(pc, m) ensures Passed(s', s'.threads[t].op.job, m) {
      if m != n { assert Passed(s, s.threads[t].op.job, m); }
    }
  }

  /** `help` ends here: nothing on our cell is open at node `n`. */
  lemma EndHelp(s: State, s': State, t: nat, n: nat)
    requires Inv(s) && Ready(s, t) && Sweeps(s, t) && AtNode(s.threads[t].op.pc) && Place(s.threads[t].op.pc) == n
    requires s.threads[t].op.pc.HRead? || s.threads[t].op.pc.HRecheck?
    requires s.nodes[n].control.Gen? ==> s.nodes[n].addr != s.threads[t].op.job.cell
    requires s' == SetPc(s, t, Pay(n, 0))
    ensures Inv(s')
  {
    Unfold(s, t);
    AllSlots(s);
    HReadWriter(s, s', t, n, Pay(n, 0));
    HReadBarrier(s, s', t, n, Pay(n, 0));
    SweepThread(s, s', t, Pay(n, 0));
    QuietSweep(s, s', t, Pay(n, 0));
  }

  /** `help` goes on with a fresh look. */
  lemma LookAgain(s: State, s': State, t: nat, n: nat)
    requires Inv(s) && Ready(s, t) && Sweeps(s, t) && AtNode(s.threads[t].op.pc) && Place(s.threads[t].op.pc) == n
    requires s.threads[t].op.pc.HRead? || s.threads[t].op.pc.HRecheck?
    requires s.nodes[n].control.Gen?
    requires s' == SetPc(s, t, HAddr(LookAt(s, s.threads[t].op.job.cell, n).o))
    ensures Inv(s')
  {
    AllSlots(s);
    var pc := s'.threads[t].op.pc;
    LookOwner(s, s', t, n);
    MonoWriter(s, s', t, pc);
    QuietSweep(s, s', t, pc);
  }

  lemma LookOwner(s: State, s': State, t: nat, n: nat)
    requires Inv(s) && Ready(s, t) && Sweeps(s, t) && AtNode(s.threads[t].op.pc) && Place(s.threads[t].op.pc) == n
    requires s.threads[t].op.pc.HRead? || s.threads[t].op.pc.HRecheck?
    requires s.nodes[n].control.Gen?
    requires s' == SetPc(s, t, HAddr(LookAt(s, s.threads[t].op.job.cell, n).o))
    ensures ThreadOK(s', t)
  {
    assert ThreadOK(s, t);
    LookOK(s, t, n);
    LookThread(s, s', t, n);
  }

  lemma LookThread(s: State, s': State, t: nat, n: nat)
    requires Ready(s, t) && Sweeps(s, t) && ThreadOK(s, t) && AtNode(s.threads[t].op.pc) && Place(s.threads[t].op.pc) == n
    requires s.threads[t].op.pc.HRead? || s.threads[t].op.pc.HRecheck?
    requires s.nodes[n].control.Gen? && GoodLook(s, t, n, LookAt(s, s.threads[t].op.job.cell, n).o)
    requires s' == SetPc(s, t, HAddr(LookAt(s, s.threads[t].op.job.cell, n).o))
    ensures ThreadOK(s', t)
  {
    var pc := s'.threads[t].op.pc;
    MonoBarrier(s, s', t, pc);
    SweepThread(s, s', t, pc);
  }

  lemma HReadOK(s: State, t: nat)
    requires Inv(s) && Sweeps(s, t) && s.threads[t].op.pc.HRead?
    ensures Ready(s, t) && Inv(DoHRead(s, t))
  {
    Unfold(s, t);
    var n := s.threads[t].op.pc.n;
    if s.nodes[n].control.Gen? { LookAgain(s, DoHRead(s, t), t, n); } else { EndHelp(s, DoHRead(s, t), t, n); }
  }

  lemma HRecheckOK(s: State, t: nat)
    requires Inv(s) && Sweeps(s, t) && s.threads[t].op.pc.HRecheck?
    ensures Ready(s, t) && Inv(DoHRecheck(s, t))
  {
    Unfold(s, t);
    var o := s.threads[t].op.pc.o;
    if SameGen(s.nodes[o.n].control, o.gen) {
      OpenTransaction(s, o.n);
      EndHelp(s, DoHRecheck(s, t), t, o.n);
    } else if s.nodes[o.n].control.Gen? {
      LookAgain(s, DoHRecheck(s, t), t, o.n);
    } else {
      EndHelp(s, DoHRecheck(s, t), t, o.n);
    }
  }
}
