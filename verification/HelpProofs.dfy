/** The hand-over inside `Slots::help`, and the return of a sweep. */
module HelpProofs {
  import opened Protocol
  import opened Steps
  import opened Invariant
  import opened Counting
  import opened Rely
  import opened Moves
  import opened CallMoves
  import opened CallProofs
  import opened SweepProofs

  // ---------------------------------------------------------------------------------------------
  // The address

  lemma HAddrOtherThread(s: State, s': State, t: nat)
    requires Ready(s, t) && Sweeps(s, t) && s.threads[t].op.pc.HAddr? && ThreadOK(s, t)
    requires s.nodes[s.threads[t].op.pc.o.n].addr != s.threads[t].op.job.cell && s' == DoHAddr(s, t)
    requires Open(s, s.threads[t].op.pc.o) ==>
      && ThreadOK(s, s.nodes[s.threads[t].op.pc.o.n].use.owner)
      && s.threads[s.nodes[s.threads[t].op.pc.o.n].use.owner].node == s.threads[t].op.pc.o.n
    ensures ThreadOK(s', t)
  {
    var o := s.threads[t].op.pc.o;
    MonoBarrier(s, s', t, HRecheck(o));
    SweepThread(s, s', t, HRecheck(o));
  }

  lemma HAddrOtherOwner(s: State, s': State, t: nat)
    requires Inv(s) && Ready(s, t) && Sweeps(s, t) && s.threads[t].op.pc.HAddr? && ThreadOK(s, t)
    requires s.nodes[s.threads[t].op.pc.o.n].addr != s.threads[t].op.job.cell && s' == DoHAddr(s, t)
    ensures ThreadOK(s', t)
  {
    var o := s.threads[t].op.pc.o;
    if Open(s, o) { OpenTransaction(s, o.n); assert ThreadOK(s, s.nodes[o.n].use.owner); }
    HAddrOtherThread(s, s', t);
  }

  lemma HAddrOther(s: State, t: nat)
    requires Inv(s) && Ready(s, t) && Sweeps(s, t) && s.threads[t].op.pc.HAddr?
    requires s.nodes[s.threads[t].op.pc.o.n].addr != s.threads[t].op.job.cell
    ensures Inv(DoHAddr(s, t))
  {
    var o := s.threads[t].op.pc.o;
    assert ThreadOK(s, t);
    AllSlots(s);
    var s' := DoHAddr(s, t);
    HAddrOtherOwner(s, s', t);
    MonoWriter(s, s', t, HRecheck(o));
    QuietSweep(s, s', t, HRecheck(o));
  }

  lemma HAddrOursThread(s: State, s': State, t: nat)
    requires Ready(s, t) && Sweeps(s, t) && s.threads[t].op.pc.HAddr? && ThreadOK(s, t) && CellOK(s, s.threads[t].op.job.cell)
    requires s.nodes[s.threads[t].op.pc.o.n].addr == s.threads[t].op.job.cell && s' == DoHAddr(s, t)
    requires Open(s, s.threads[t].op.pc.o) ==>
      s.threads[s.nodes[s.threads[t].op.pc.o.n].use.owner].call.ask.cell == s.nodes[s.threads[t].op.pc.o.n].addr
    ensures ThreadOK(s', t)
  {
    MonoBarrier(s, s', t, HLoad(s.threads[t].op.pc.o));
    HAddrOursObs(s, s', t);
  }

  lemma HAddrOursObs(s: State, s': State, t: nat)
    requires Ready(s, t) && Sweeps(s, t) && s.threads[t].op.pc.HAddr? && ThreadOK(s, t)
    requires s.nodes[s.threads[t].op.pc.o.n].addr == s.threads[t].op.job.cell && s' == DoHAddr(s, t)
    requires Open(s, s.threads[t].op.pc.o) ==>
      s.threads[s.nodes[s.threads[t].op.pc.o.n].use.owner].call.ask.cell == s.nodes[s.threads[t].op.pc.o.n].addr
    ensures OpOK(s', t) && ObsOK(s', t)
  {
  }

  lemma HAddrOursOwner(s: State, s': State, t: nat)
    requires Inv(s) && Ready(s, t) && Sweeps(s, t) && s.threads[t].op.pc.HAddr? && ThreadOK(s, t)
    requires s.nodes[s.threads[t].op.pc.o.n].addr == s.threads[t].op.job.cell && s' == DoHAddr(s, t)
    ensures ThreadOK(s', t)
  {
    assert CellOK(s, s.threads[t].op.job.cell);
    if Open(s, s.threads[t].op.pc.o) { OpenTransaction(s, s.threads[t].op.pc.o.n); }
    HAddrOursThread(s, s', t);
  }

  lemma HAddrOurs(s: State, t: nat)
    requires Inv(s) && Ready(s, t) && Sweeps(s, t) && s.threads[t].op.pc.HAddr?
    requires s.nodes[s.threads[t].op.pc.o.n].addr == s.threads[t].op.job.cell
    ensures Inv(DoHAddr(s, t))
  {
    assert ThreadOK(s, t);
    var s' := DoHAddr(s, t);
    AllSlots(s);
    HAddrOursOwner(s, s', t);
    MonoWriter(s, s', t, s'.threads[t].op.pc);
    QuietStep(s, s', t, s'.threads[t]);
  }

  lemma HAddrOK(s: State, t: nat)
    requires Inv(s) && Sweeps(s, t) && s.threads[t].op.pc.HAddr?
    ensures Ready(s, t) && Inv(DoHAddr(s, t))
  {
    Unfold(s, t);
    if s.nodes[s.threads[t].op.pc.o.n].addr != s.threads[t].op.job.cell { HAddrOther(s, t); } else { HAddrOurs(s, t); }
  }

  // ---------------------------------------------------------------------------------------------
  // The replacement arrives

  lemma HLoadThread(s: State, s': State, t: nat)
    requires Ready(s, t) && ThreadOK(s, t) && s.threads[t].op.Sweeping? && s.threads[t].op.pc.HLoad? && s.threads[t].call.Done?
    requires s' == DoHLoad(s, t)
    ensures ThreadOK(s', t)
  {
    HLoadObs(s, s', t);
    HLoadBarrier(s, s', t);
  }

  lemma HLoadObs(s: State, s': State, t: nat)
    requires Ready(s, t) && OwnOK(s, t) && CallOK(s, t) && ObsOK(s, t)
    requires s.threads[t].op.Sweeping? && s.threads[t].op.pc.HLoad? && s.threads[t].call.Done? && s' == DoHLoad(s, t)
    ensures ObsOK(s', t)
  {
    var o := s.threads[t].op.pc.o;
    var Done(ask, g) := s.threads[t].call;
    var k :| ask.since <= k < |s.cells[ask.cell].hist| && s.cells[ask.cell].hist[k] == s.guards[g].ptr;
    assert Seen(s', ask.cell, o.since, s.guards[g].ptr);
  }

  lemma HLoadBarrier(s: State, s': State, t: nat)
    requires Ready(s, t) && BarrierOK(s, t) && s.threads[t].op.Sweeping? && s.threads[t].op.pc.HLoad? && s.threads[t].call.Done?
    requires s' == DoHLoad(s, t)
    ensures BarrierOK(s', t)
  {
    forall n | 0 <= n < |s'.nodes| && !WillHelp(s'.threads[t].op.pc, n) ensures Passed(s', s'.threads[t].op.job, n) {
      assert Passed(s, s.threads[t].op.job, n);
    }
  }

  lemma HLoadWriter(s: State, s': State, t: nat)
    requires Ready(s, t) && s.threads[t].op.Sweeping? && s.threads[t].op.pc.HLoad? && s.threads[t].call.Done?
    requires s' == DoHLoad(s, t)
    ensures WriterFrame(s, s', t)
  {
    forall n | 0 <= n < |s'.nodes| ensures HelpFrame(s, s', t, n) {}
    forall n, j | 0 <= n < |s'.nodes| && 0 <= j < |s'.nodes[n].slots| ensures PassFrame(s, s', t, n, j) {}
  }

  /** A guard in the hands of `t` changes together with the operation of `t`. */
  lemma HandBalance(s: State, s': State, t: nat, g: nat)
    requires Balanced(s) && t < |s.threads| && g < |s.guards|
    requires |s'.threads| == |s.threads| && |s'.guards| == |s.guards|
    requires s' == s.(threads := s.threads[t := s'.threads[t]], guards := s.guards[g := s'.guards[g]],
                      refs := s'.refs, handles := s'.handles)
    requires forall p :: s'.refs[p] - s'.handles[p] - ThreadOwns(s'.threads[t], p) - GuardHolds(s'.guards[g], p) ==
                         s.refs[p] - s.handles[p] - ThreadOwns(s.threads[t], p) - GuardHolds(s.guards[g], p)
    ensures Balanced(s')
  {
    forall p ensures s'.refs[p] == Owned(s', p) {
      assert s.refs[p] == Owned(s, p);
      ThreadSum(s.threads, t, s'.threads[t], p);
      GuardSum(s.guards, g, s'.guards[g], p);
    }
  }

  /** A step of an operation that gives a guard away or takes one. */
  lemma HandStep(s: State, s': State, t: nat, g: nat)
    requires Inv(s) && t < |s.threads| && g < |s.guards|
    requires |s'.threads| == |s.threads| && |s'.guards| == |s.guards|
    requires s' == s.(threads := s.threads[t := s'.threads[t]], guards := s.guards[g := s'.guards[g]],
                      refs := s'.refs, handles := s'.handles)
    requires s.guards[g].status.Loose? || s.guards[g].status == Held(t)
    requires Advances(s.threads[t], s'.threads[t]) && SameHands(s.threads[t], s'.threads[t], g)
    requires SamePlace(s.threads[t], s'.threads[t], |s.nodes|) && s'.threads[t].node == s.threads[t].node
    requires Tag(s'.threads[t]) == Tag(s.threads[t]) && Storing(s'.threads[t]) == Storing(s.threads[t])
    requires WriterFrame(s, s', t) && ThreadOK(s', t) && GuardOK(s', g) && KeepsDebt(s.guards[g], s'.guards[g])
    requires Balanced(s')
    ensures Inv(s')
  {
    SameCells(s, s', t);
    PlainStep(s, s', t, g, |s.nodes|);
    ThreadEnvelopes(s, s', t);
    Commit(s, s', t, g, |s.nodes|);
  }

  lemma HLoadOK(s: State, t: nat)
    requires Inv(s) && t < |s.threads| && s.threads[t].op.Sweeping? && s.threads[t].op.pc.HLoad? && s.threads[t].call.Done?
    ensures Ready(s, t) && Inv(DoHLoad(s, t))
  {
    Unfold(s, t);
    var s' := DoHLoad(s, t);
    var g := s.threads[t].call.g;
    HLoadThread(s, s', t);
    HLoadWriter(s, s', t);
    HLoadBalance(s, s', t);
    HandStep(s, s', t, g);
  }

  /** The reference goes from the guard to the operation. */
  lemma HLoadBalance(s: State, s': State, t: nat)
    requires Ready(s, t) && Balanced(s) && s.threads[t].op.Sweeping? && s.threads[t].op.pc.HLoad? && s.threads[t].call.Done?
    requires GuardOK(s, s.threads[t].call.g) && s.guards[s.threads[t].call.g].debt.NoDebt? && s' == DoHLoad(s, t)
    ensures Balanced(s')
  {
    HandBalance(s, s', t, s.threads[t].call.g);
  }

  // ---------------------------------------------------------------------------------------------
  // The envelopes

  lemma HTheirOK(s: State, t: nat)
    requires Inv(s) && Sweeps(s, t) && s.threads[t].op.pc.HTheir?
    ensures Ready(s, t) && Inv(DoHTheir(s, t))
  {
    Unfold(s, t);
    AllSlots(s);
    var s' := DoHTheir(s, t);
    var pc := s'.threads[t].op.pc;
    assert NodeOK(s, pc.o.n);
    HTheirThread(s, s', t);
    MonoWriter(s, s', t, pc);
    QuietSweep(s, s', t, pc);
  }

  lemma HTheirThread(s: State, s': State, t: nat)
    requires Ready(s, t) && Sweeps(s, t) && ThreadOK(s, t) && s.threads[t].op.pc.HTheir?
    requires s.threads[t].op.pc.o.n < |s.nodes| && s.nodes[s.threads[t].op.pc.o.n].offer < |s.env| && s' == DoHTheir(s, t)
    ensures ThreadOK(s', t)
  {
    var pc := s'.threads[t].op.pc;
    MonoBarrier(s, s', t, pc);
    SweepThread(s, s', t, pc);
  }

  lemma HMineThread(s: State, s': State, t: nat)
    requires Ready(s, t) && Sweeps(s, t) && ThreadOK(s, t) && s.threads[t].op.pc.HMine?
    requires s.nodes[s.threads[t].node].offer < |s.env| && s' == DoHMine(s, t)
    ensures ThreadOK(s', t)
  {
    var pc := s'.threads[t].op.pc;
    MonoBarrier(s, s', t, pc);
    SweepThread(s, s', t, pc);
  }

  lemma HMineOK(s: State, t: nat)
    requires Inv(s) && Sweeps(s, t) && s.threads[t].op.pc.HMine?
    ensures Ready(s, t) && Inv(DoHMine(s, t))
  {
    Unfold(s, t);
    AllSlots(s);
    var s' := DoHMine(s, t);
    var pc := s'.threads[t].op.pc;
    HMineThread(s, s', t);
    MonoWriter(s, s', t, pc);
    QuietSweep(s, s', t, pc);
  }

  lemma HDropOK(s: State, t: nat)
    requires Inv(s) && Sweeps(s, t) && s.threads[t].op.pc.HDrop?
    ensures Ready(s, t) && Inv(DoHDrop(s, t))
  {
    Unfold(s, t);
    AllSlots(s);
    var s' := DoHDrop(s, t);
    var pc := s'.threads[t].op.pc;
    ThreadAlive(s, t, s.threads[t].op.pc.r);
    HDropThread(s, s', t);
    MonoWriter(s, s', t, pc);
    QuietSweep(s, s', t, pc);
  }

  lemma HDropThread(s: State, s': State, t: nat)
    requires Ready(s, t) && Sweeps(s, t) && s.threads[t].op.pc.HDrop? && ThreadOK(s, t) && s' == DoHDrop(s, t)
    ensures ThreadOK(s', t)
  {
    var pc := s'.threads[t].op.pc;
    MonoBarrier(s, s', t, pc);
    SweepThread(s, s', t, pc);
  }

  lemma HWriteThread(s: State, s': State, t: nat)
    requires Ready(s, t) && Sweeps(s, t) && s.threads[t].op.pc.HWrite? && ThreadOK(s, t) && s' == DoHWrite(s, t)
    ensures ThreadOK(s', t)
  {
    var pc := s'.threads[t].op.pc;
    SameSeen(s, s', Ask(s.threads[t].op.job.cell, pc.o.since, true), pc.r);
    MonoBarrier(s, s', t, pc);
    SweepThread(s, s', t, pc);
  }

  lemma HWriteOK(s: State, t: nat)
    requires Inv(s) && Sweeps(s, t) && s.threads[t].op.pc.HWrite?
    ensures Ready(s, t) && Inv(DoHWrite(s, t))
  {
    Unfold(s, t);
    AllSlots(s);
    var s' := DoHWrite(s, t);
    MonoWriter(s, s', t, s'.threads[t].op.pc);
    HWriteThread(s, s', t);
    HWriteStep(s, s', t);
    ThreadEnvelopes(s, s', t);
    HWriteBalance(s, s', t);
    Commit(s, s', t, |s.guards|, |s.nodes|);
  }

  lemma HWriteBalance(s: State, s': State, t: nat)
    requires Ready(s, t) && Balanced(s) && Sweeps(s, t) && s.threads[t].op.pc.HWrite? && s' == DoHWrite(s, t)
    ensures Balanced(s')
  {
    forall p ensures s'.refs[p] == Owned(s', p) {
      assert s.refs[p] == Owned(s, p);
      ThreadSum(s.threads, t, s'.threads[t], p);
    }
  }

  lemma HWriteStep(s: State, s': State, t: nat)
    requires Inv(s) && Ready(s, t) && Sweeps(s, t) && s.threads[t].op.pc.HWrite? && s' == DoHWrite(s, t)
    requires WriterFrame(s, s', t)
    ensures Step(s, s', t, |s.guards|, |s.nodes|)
  {
    assert ThreadOK(s, t);
    SameCells(s, s', t);
    PlainStep(s, s', t, |s.guards|, |s.nodes|);
  }

  lemma HCasMissThread(s: State, s': State, t: nat)
    requires Inv(s) && Ready(s, t) && Sweeps(s, t) && s.threads[t].op.pc.HCas? && ThreadOK(s, t) && s' == DoHCas(s, t)
    requires !SameGen(s.nodes[s.threads[t].op.pc.o.n].control, s.threads[t].op.pc.o.gen)
    ensures ThreadOK(s', t)
  {
    var n := s.threads[t].op.pc.o.n;
    var pc := s'.threads[t].op.pc;
    if s.nodes[n].control.Gen? {
      LookOK(s, t, n);
      MonoBarrier(s, s', t, pc);
    } else {
      HReadBarrier(s, s', t, n, pc);
    }
    SweepThread(s, s', t, pc);
  }

  lemma HCasMiss(s: State, t: nat)
    requires Inv(s) && Ready(s, t) && Sweeps(s, t) && s.threads[t].op.pc.HCas?
    requires !SameGen(s.nodes[s.threads[t].op.pc.o.n].control, s.threads[t].op.pc.o.gen)
    ensures Inv(DoHCas(s, t))
  {
    assert ThreadOK(s, t);
    AllSlots(s);
    var n := s.threads[t].op.pc.o.n;
    var s' := DoHCas(s, t);
    var pc := s'.threads[t].op.pc;
    HCasMissThread(s, s', t);
    if s.nodes[n].control.Gen? { MonoWriter(s, s', t, pc); } else { HReadWriter(s, s', t, n, pc); }
    QuietSweep(s, s', t, pc);
  }

  // The hand-over succeeds: the envelopes change places.

  lemma HCasHitThread(s: State, s': State, t: nat)
    requires Ready(s, t) && Sweeps(s, t) && s.threads[t].op.pc.HCas? && ThreadOK(s, t) && s' == DoHCas(s, t)
    requires SameGen(s.nodes[s.threads[t].op.pc.o.n].control, s.threads[t].op.pc.o.gen)
    ensures ThreadOK(s', t)
  {
    var pc := s'.threads[t].op.pc;
    forall n | 0 <= n < |s'.nodes| && !WillHelp(pc, n) ensures Passed(s', s'.threads[t].op.job, n) {
      if n != pc.n { assert Passed(s, s.threads[t].op.job, n); }
    }
    SweepThread(s, s', t, pc);
  }

  lemma HCasHitNode(s: State, s': State, t: nat)
    requires Inv(s) && Ready(s, t) && Sweeps(s, t) && s.threads[t].op.pc.HCas? && ThreadOK(s, t) && s' == DoHCas(s, t)
    requires SameGen(s.nodes[s.threads[t].op.pc.o.n].control, s.threads[t].op.pc.o.gen)
    ensures NodeOK(s', s.threads[t].op.pc.o.n) && NodeFrame(s, s', t, s.threads[t].op.pc.o.n)
  {
    var HCas(o, r, their, mine) := s.threads[t].op.pc;
    OpenTransaction(s, o.n);
    assert NodeOK(s, o.n);
    forall j | 0 <= j < SLOTS ensures SlotOK(s', o.n, j) { assert SlotOK(s, o.n, j); }
    var ask := s.threads[s.nodes[o.n].use.owner].call.ask;
    var k :| o.since <= k < |s.cells[ask.cell].hist| && s.cells[ask.cell].hist[k] == r;
    assert Seen(s', ask.cell, ask.since, r);
  }

  lemma HCasHitWriter(s: State, s': State, t: nat)
    requires Ready(s, t) && Sweeps(s, t) && s.threads[t].op.pc.HCas? && s' == DoHCas(s, t)
    requires SameGen(s.nodes[s.threads[t].op.pc.o.n].control, s.threads[t].op.pc.o.gen)
    ensures WriterFrame(s, s', t)
  {
    forall n | 0 <= n < |s'.nodes| ensures HelpFrame(s, s', t, n) {}
    forall n, j | 0 <= n < |s'.nodes| && 0 <= j < |s'.nodes[n].slots| ensures PassFrame(s, s', t, n, j) {}
  }

  lemma HCasHitEnvelopes(s: State, s': State, t: nat)
    requires Inv(s) && Ready(s, t) && Sweeps(s, t) && s.threads[t].op.pc.HCas? && ThreadOK(s, t) && s' == DoHCas(s, t)
    requires SameGen(s.nodes[s.threads[t].op.pc.o.n].control, s.threads[t].op.pc.o.gen)
    ensures EnvelopesOK(s')
  {
    var HCas(o, r, their, mine) := s.threads[t].op.pc;
    var me := s.threads[t].node;
    OpenTransaction(s, o.n);
    assert ThreadOK(s, s.nodes[o.n].use.owner);
    assert Envelope(s, me) == mine && Envelope(s, o.n) == their;
    assert Envelope(s', me) == their && Envelope(s', o.n) == mine;
    forall n | 0 <= n < |s.nodes| && n != me && n != o.n ensures Envelope(s', n) == Envelope(s, n) { assert NodeOK(s, n); }
    Swapped(s, s', me, o.n);
  }

  lemma Swapped(s: State, s': State, m: nat, n: nat)
    requires EnvelopesOK(s) && |s'.nodes| == |s.nodes| && m < |s.nodes| && n < |s.nodes| && m != n
    requires Envelope(s', m) == Envelope(s, n) && Envelope(s', n) == Envelope(s, m)
    requires forall i :: 0 <= i < |s.nodes| && i != m && i != n ==> Envelope(s', i) == Envelope(s, i)
    ensures EnvelopesOK(s')
  {
    assert Envelope(s, m) < |s.nodes| && Envelope(s, n) < |s.nodes|;
    forall i | 0 <= i < |s'.nodes| ensures Envelope(s', i) < |s'.nodes| { assert Envelope(s, i) < |s.nodes|; }
    forall i, j | 0 <= i < j < |s'.nodes| ensures Envelope(s', i) != Envelope(s', j) {
      var i0 := if i == m then n else if i == n then m else i;
      var j0 := if j == m then n else if j == n then m else j;
      if i0 < j0 { assert Envelope(s, i0) != Envelope(s, j0); } else { assert Envelope(s, j0) != Envelope(s, i0); }
    }
  }

  lemma HCasHitStep(s: State, s': State, t: nat)
    requires Inv(s) && Ready(s, t) && Sweeps(s, t) && s.threads[t].op.pc.HCas? && s' == DoHCas(s, t)
    requires SameGen(s.nodes[s.threads[t].op.pc.o.n].control, s.threads[t].op.pc.o.gen)
    requires NodeOK(s', s.threads[t].op.pc.o.n) && NodeFrame(s, s', t, s.threads[t].op.pc.o.n)
    ensures Step(s, s', t, |s.guards|, s.threads[t].op.pc.o.n)
  {
    HCasHitWriter(s, s', t);
    SameCells(s, s', t);
    PlainStep(s, s', t, |s.guards|, s.threads[t].op.pc.o.n);
  }

  lemma HCasHitBalance(s: State, s': State, t: nat)
    requires Balanced(s) && Ready(s, t) && Sweeps(s, t) && s.threads[t].op.pc.HCas? && s' == DoHCas(s, t)
    requires SameGen(s.nodes[s.threads[t].op.pc.o.n].control, s.threads[t].op.pc.o.gen)
    ensures Balanced(s')
  {
    var n := s.threads[t].op.pc.o.n;
    NodeBalance(s, s', t, s'.threads[t], n, s'.nodes[n]);
  }

  lemma HCasHit(s: State, t: nat)
    requires Inv(s) && Ready(s, t) && Sweeps(s, t) && s.threads[t].op.pc.HCas?
    requires SameGen(s.nodes[s.threads[t].op.pc.o.n].control, s.threads[t].op.pc.o.gen)
    ensures Inv(DoHCas(s, t))
  {
    var s' := DoHCas(s, t);
    var n := s.threads[t].op.pc.o.n;
    assert ThreadOK(s, t);
    HCasHitThread(s, s', t);
    HCasHitNode(s, s', t);
    HCasHitStep(s, s', t);
    HCasHitEnvelopes(s, s', t);
    HCasHitBalance(s, s', t);
    Commit(s, s', t, |s.guards|, n);
  }

  // Keep their envelope.

  lemma HStoreThread(s: State, s': State, t: nat)
    requires Ready(s, t) && Sweeps(s, t) && s.threads[t].op.pc.HStore? && ThreadOK(s, t) && s' == DoHStore(s, t)
    ensures ThreadOK(s', t)
  {
    var pc := s'.threads[t].op.pc;
    MonoBarrier(s, s', t, pc);
    SweepThread(s, s', t, pc);
  }

  lemma HStoreNode(s: State, s': State, t: nat)
    requires Ready(s, t) && Sweeps(s, t) && s.threads[t].op.pc.HStore? && ThreadOK(s, t) && s' == DoHStore(s, t)
    requires NodeOK(s, s.threads[t].node)
    ensures NodeOK(s', s.threads[t].node) && NodeFrame(s, s', t, s.threads[t].node)
    ensures Envelope(s', s.threads[t].node) == Envelope(s, s.threads[t].node)
  {
    var n := s.threads[t].node;
    forall j | 0 <= j < SLOTS ensures SlotOK(s', n, j) { assert SlotOK(s, n, j); }
  }

  lemma HStoreBalance(s: State, s': State, t: nat)
    requires Balanced(s) && Ready(s, t) && Sweeps(s, t) && s.threads[t].op.pc.HStore? && s' == DoHStore(s, t)
    ensures Balanced(s')
  {
    var n := s.threads[t].node;
    NodeBalance(s, s', t, s'.threads[t], n, s'.nodes[n]);
  }

  lemma HStoreOK(s: State, t: nat)
    requires Inv(s) && Sweeps(s, t) && s.threads[t].op.pc.HStore?
    ensures Ready(s, t) && Inv(DoHStore(s, t))
  {
    Unfold(s, t);
    var s' := DoHStore(s, t);
    var n := s.threads[t].node;
    HStoreThread(s, s', t);
    HStoreNode(s, s', t);
    HStoreStep(s, s', t);
    NodeEnvelopes(s, s', t, n);
    HStoreBalance(s, s', t);
    Commit(s, s', t, |s.guards|, n);
  }

  lemma HStoreStep(s: State, s': State, t: nat)
    requires Inv(s) && Ready(s, t) && Sweeps(s, t) && s.threads[t].op.pc.HStore? && s' == DoHStore(s, t)
    requires NodeOK(s', s.threads[t].node) && NodeFrame(s, s', t, s.threads[t].node)
    ensures Step(s, s', t, |s.guards|, s.threads[t].node)
  {
    AllSlots(s);
    MonoWriter(s, s', t, s'.threads[t].op.pc);
    SameCells(s, s', t);
    PlainStep(s, s', t, |s.guards|, s.threads[t].node);
  }

  // ---------------------------------------------------------------------------------------------
  // The sweep returns

  lemma SweptThread(s: State, s': State, t: nat)
    requires Ready(s, t) && Sweeps(s, t) && s.threads[t].op.pc.Swept? && ThreadOK(s, t) && s' == DoSwept(s, t)
    ensures ThreadOK(s', t)
  {
  }

  lemma SweptWriter(s: State, s': State, t: nat)
    requires Ready(s, t) && Sweeps(s, t) && s.threads[t].op.pc.Swept? && s' == DoSwept(s, t)
    ensures WriterFrame(s, s', t)
  {
    forall n | 0 <= n < |s'.nodes| ensures HelpFrame(s, s', t, n) {}
    forall n, j | 0 <= n < |s'.nodes| && 0 <= j < |s'.nodes[n].slots| ensures PassFrame(s, s', t, n, j) {}
  }

  /** A guard that goes from the operation to the user. */
  lemma HandOut(s: State, s': State, t: nat, g: nat)
    requires t < |s.threads| == |s'.threads| && HeldGuard(s, t, g) && GuardOK(s, g)
    requires s'.guards == s.guards[g := s.guards[g].(status := Loose)] && s'.nodes == s.nodes && s'.cells == s.cells
    requires forall i :: 0 <= i < |s.threads| && i != t ==> s'.threads[i] == s.threads[i]
    requires forall c, p, n, j :: !Covers(s.threads[t].op, c, p, n, j)
    requires !OnHelping(s.threads[t].call, g)
    ensures GuardOK(s', g)
  {
    var gd := s.guards[g];
    SameSeen(s, s', Ask(gd.src, 0, true), gd.ptr);
    if !gd.paid && gd.debt.At? && !Holds(s, gd.src, gd.ptr) {
      var w :| 0 <= w < |s.threads| && Covers(s.threads[w].op, gd.src, gd.ptr, gd.debt.node, gd.debt.slot);
      assert Covers(s'.threads[w].op, gd.src, gd.ptr, gd.debt.node, gd.debt.slot);
    }
  }

  lemma SweptCas(s: State, t: nat)
    requires Inv(s) && Ready(s, t) && Sweeps(s, t) && s.threads[t].op.pc.Swept? && s.threads[t].op.job.kind.KCas?
    ensures Inv(DoSwept(s, t))
  {
    var s' := DoSwept(s, t);
    var g := s.threads[t].op.job.kind.g;
    assert ThreadOK(s, t) && GuardOK(s, g);
    ThreadAlive(s, t, s.threads[t].op.job.out);
    SweptThread(s, s', t);
    SweptWriter(s, s', t);
    HandOut(s, s', t, g);
    SweptCasBalance(s, s', t);
    HandStep(s, s', t, g);
  }

  lemma SweptCasBalance(s: State, s': State, t: nat)
    requires Balanced(s) && Ready(s, t) && Sweeps(s, t) && s.threads[t].op.pc.Swept? && s.threads[t].op.job.kind.KCas?
    requires HeldGuard(s, t, s.threads[t].op.job.kind.g) && s.refs[s.threads[t].op.job.out] > 0 && s' == DoSwept(s, t)
    ensures Balanced(s')
  {
    HandBalance(s, s', t, s.threads[t].op.job.kind.g);
  }

  lemma SweptOK(s: State, t: nat)
    requires Inv(s) && Sweeps(s, t) && s.threads[t].op.pc.Swept?
    ensures Ready(s, t) && Inv(DoSwept(s, t))
  {
    Unfold(s, t);
    if s.threads[t].op.job.kind.KCas? { SweptCas(s, t); } else { SweptPlain(s, t); }
  }

  lemma SweptCounts(s: State, s': State, t: nat)
    requires Ready(s, t) && Sweeps(s, t) && s.threads[t].op.pc.Swept? && !s.threads[t].op.job.kind.KCas?
    requires s.refs[s.threads[t].op.job.out] > 0 && s' == DoSwept(s, t)
    ensures |s'.threads| == |s.threads| && s' == s.(threads := s.threads[t := s'.threads[t]], refs := s'.refs, handles := s'.handles)
    ensures forall p :: s'.refs[p] - s'.handles[p] - ThreadOwns(s'.threads[t], p) == s.refs[p] - s.handles[p] - ThreadOwns(s.threads[t], p)
  {
  }

  lemma SweptPlain(s: State, t: nat)
    requires Inv(s) && Ready(s, t) && Sweeps(s, t) && s.threads[t].op.pc.Swept? && !s.threads[t].op.job.kind.KCas?
    ensures Inv(DoSwept(s, t))
  {
    assert ThreadOK(s, t);
    ThreadAlive(s, t, s.threads[t].op.job.out);
    SweptDone(s, DoSwept(s, t), t);
  }

  lemma SweptShape(s: State, s': State, t: nat)
    requires Ready(s, t) && Sweeps(s, t) && s.threads[t].op.pc.Swept? && !s.threads[t].op.job.kind.KCas? && s' == DoSwept(s, t)
    ensures t < |s'.threads| && s'.threads[t].node == s.threads[t].node
    ensures Advances(s.threads[t], s'.threads[t]) && SameHands(s.threads[t], s'.threads[t], |s.guards|)
    ensures SamePlace(s.threads[t], s'.threads[t], |s.nodes|)
    ensures Tag(s'.threads[t]) == Tag(s.threads[t]) && Storing(s'.threads[t]) == Storing(s.threads[t])
  {
  }

  lemma SweptDone(s: State, s': State, t: nat)
    requires Inv(s) && Ready(s, t) && Sweeps(s, t) && s.threads[t].op.pc.Swept? && !s.threads[t].op.job.kind.KCas?
    requires ThreadOK(s, t) && s.refs[s.threads[t].op.job.out] > 0 && s' == DoSwept(s, t)
    ensures Inv(s')
  {
    SweptThread(s, s', t);
    SweptWriter(s, s', t);
    SweptCounts(s, s', t);
    SweptShape(s, s', t);
    QuietStep(s, s', t, s'.threads[t]);
  }
}
