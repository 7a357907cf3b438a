/** `load`, `swap`, `compare_and_swap`, the end of a storage, and the actions of users. */
module UserProofs {
  import opened Protocol
  import opened Steps
  import opened Invariant
  import opened Counting
  import opened Rely
  import opened Moves
  import opened CallMoves
  import opened CallProofs
  import opened SweepProofs
  import opened HelpProofs
  import opened OpProofs

  // ---------------------------------------------------------------------------------------------
  // Returns of a call

  lemma LoadedThread(s: State, s': State, t: nat)
    requires Ready(s, t) && ThreadOK(s, t) && s.threads[t].op.Loading? && s.threads[t].call.Done? && s' == DoLoaded(s, t)
    ensures ThreadOK(s', t)
  {
  }

  lemma LoadedBalance(s: State, s': State, t: nat)
    requires Ready(s, t) && Balanced(s) && s.threads[t].op.Loading? && s.threads[t].call.Done? && s' == DoLoaded(s, t)
    requires s.threads[t].call.ask.full ==> s.guards[s.threads[t].call.g].paid
    ensures Balanced(s')
  {
    HandBalance(s, s', t, s.threads[t].call.g);
  }

  lemma LoadedGuard(s: State, t: nat)
    requires Inv(s) && Ready(s, t) && s.threads[t].op.Loading? && s.threads[t].call.Done? && !s.threads[t].call.ask.full
    ensures Inv(DoLoaded(s, t))
  {
    var s' := DoLoaded(s, t);
    var g := s.threads[t].call.g;
    assert ThreadOK(s, t) && GuardOK(s, g);
    LoadedThread(s, s', t);
    SameWriter(s, s', t);
    HandOut(s, s', t, g);
    LoadedBalance(s, s', t);
    HandStep(s, s', t, g);
  }

  lemma LoadedFull(s: State, t: nat)
    requires Inv(s) && Ready(s, t) && s.threads[t].op.Loading? && s.threads[t].call.Done? && s.threads[t].call.ask.full
    ensures Inv(DoLoaded(s, t))
  {
    var s' := DoLoaded(s, t);
    var g := s.threads[t].call.g;
    assert ThreadOK(s, t) && GuardOK(s, g);
    LoadedThread(s, s', t);
    SameWriter(s, s', t);
    LoadedBalance(s, s', t);
    HandStep(s, s', t, g);
  }

  lemma DroppedOK(s: State, t: nat)
    requires Inv(s) && t < |s.threads| && s.threads[t].op.Dropping? && s.threads[t].call.Dropped?
    ensures Ready(s, t) && Inv(DoDropped(s, t))
  {
    Unfold(s, t);
    QuietOp(s, DoDropped(s, t), t);
  }

  lemma CLoadOK(s: State, t: nat)
    requires Inv(s) && t < |s.threads| && s.threads[t].op.CLoad? && s.threads[t].call.Done?
    ensures Ready(s, t) && Inv(DoCLoad(s, t))
  {
    Unfold(s, t);
    CLoadThread(s, t);
    QuietOp(s, DoCLoad(s, t), t);
  }

  lemma CLoadThread(s: State, t: nat)
    requires Ready(s, t) && ThreadOK(s, t) && s.threads[t].op.CLoad? && s.threads[t].call.Done?
    ensures ThreadOK(DoCLoad(s, t), t)
  {
  }

  lemma CRetryOK(s: State, t: nat)
    requires Inv(s) && t < |s.threads| && s.threads[t].op.CRetry? && s.threads[t].call.Dropped?
    ensures Ready(s, t) && Inv(DoCRetry(s, t))
  {
    Unfold(s, t);
    assert CellOK(s, s.threads[t].op.c);
    QuietOp(s, DoCRetry(s, t), t);
  }

  lemma CKeepThread(s: State, t: nat)
    requires Ready(s, t) && Plainly(s, t) && ThreadOK(s, t) && s.threads[t].op.CKeep?
    ensures ThreadOK(DoCKeep(s, t), t)
  {
  }

  lemma CKeepOK(s: State, t: nat)
    requires Inv(s) && Plainly(s, t) && s.threads[t].op.CKeep?
    ensures Ready(s, t) && Inv(DoCKeep(s, t))
  {
    Unfold(s, t);
    var s' := DoCKeep(s, t);
    var g := s.threads[t].op.g;
    assert GuardOK(s, g);
    ThreadAlive(s, t, s.threads[t].op.nv);
    CKeepThread(s, t);
    SameWriter(s, s', t);
    HandOut(s, s', t, g);
    CKeepBalance(s, s', t);
    HandStep(s, s', t, g);
  }

  lemma CKeepBalance(s: State, s': State, t: nat)
    requires Ready(s, t) && Balanced(s) && Plainly(s, t) && s.threads[t].op.CKeep? && s' == DoCKeep(s, t)
    requires HeldGuard(s, t, s.threads[t].op.g) && s.refs[s.threads[t].op.nv] > 0
    ensures Balanced(s')
  {
    HandBalance(s, s', t, s.threads[t].op.g);
  }

  // ---------------------------------------------------------------------------------------------
  // Something leaves its cell

  /** Thread `t` took the value out of cell `c` and begins to sweep. */
  ghost predicate TakesOut(s: State, s': State, t: nat, c: nat) {
    && Plainly(s, t) && c < |s.cells| == |s'.cells| && |s'.threads| == |s.threads|
    && s' == s.(threads := s.threads[t := s'.threads[t]], cells := s.cells[c := s'.cells[c]])
    && s.cells[c].live
    && s'.threads[t].op.Sweeping? && s'.threads[t].op.pc.Prepay?
    && s'.threads[t].op.job.cell == c && s'.threads[t].op.job.out == s.cells[c].val
    && s'.threads[t] == s.threads[t].(op := s'.threads[t].op)
    && (if s'.cells[c].live then s'.cells[c].hist == s.cells[c].hist + [s'.cells[c].val]
        else
          && s'.cells[c] == s.cells[c].(live := false)
          && forall i :: 0 <= i < |s.threads| && i != t ==> !Borrows(s.threads[i], c))
  }

  lemma TakenCells(s: State, s': State, t: nat, c: nat)
    requires Inv(s) && TakesOut(s, s', t, c)
    ensures CellsFrame(s, s', t)
  {
    forall d | 0 <= d < |s.cells| ensures CellFrame(s, s', t, d) && CellOK(s', d) { assert CellOK(s, d); }
  }

  lemma TakenBalance(s: State, s': State, t: nat, c: nat)
    requires Balanced(s) && TakesOut(s, s', t, c)
    requires forall p :: ThreadOwns(s'.threads[t], p) + CellHolds(s'.cells[c], p) ==
                         ThreadOwns(s.threads[t], p) + CellHolds(s.cells[c], p)
    ensures Balanced(s')
  {
    forall p ensures s'.refs[p] == Owned(s', p) {
      assert s.refs[p] == Owned(s, p);
      ThreadSum(s.threads, t, s'.threads[t], p);
      CellSum(s.cells, c, s'.cells[c], p);
    }
  }

  lemma TakenStep(s: State, s': State, t: nat, c: nat)
    requires Inv(s) && TakesOut(s, s', t, c) && ThreadOK(s', t)
    requires SameHands(s.threads[t], s'.threads[t], |s.guards|) && SamePlace(s.threads[t], s'.threads[t], |s.nodes|)
    requires Balanced(s')
    ensures Inv(s')
  {
    assert ThreadOK(s, t);
    TakenCells(s, s', t, c);
    SameWriter(s, s', t);
    PlainStep(s, s', t, |s.guards|, |s.nodes|);
    ThreadEnvelopes(s, s', t);
    Commit(s, s', t, |s.guards|, |s.nodes|);
  }

  lemma SwapOK(s: State, t: nat)
    requires Inv(s) && Plainly(s, t) && s.threads[t].op.Swapping?
    ensures Ready(s, t) && Inv(DoSwap(s, t))
  {
    Unfold(s, t);
    var s' := DoSwap(s, t);
    var c := s.threads[t].op.c;
    TakenBalance(s, s', t, c);
    TakenStep(s, s', t, c);
  }

  lemma CTryHit(s: State, t: nat)
    requires Inv(s) && Ready(s, t) && Plainly(s, t) && s.threads[t].op.CTry? && s.cells[s.threads[t].op.c].val == s.threads[t].op.cur
    ensures Inv(DoCTry(s, t, false))
  {
    assert ThreadOK(s, t);
    var s' := DoCTry(s, t, false);
    var c := s.threads[t].op.c;
    CTryHitThread(s, s', t);
    TakenBalance(s, s', t, c);
    TakenStep(s, s', t, c);
  }

  lemma CTryHitThread(s: State, s': State, t: nat)
    requires Ready(s, t) && Plainly(s, t) && ThreadOK(s, t) && s.threads[t].op.CTry?
    requires s.cells[s.threads[t].op.c].val == s.threads[t].op.cur && s' == DoCTry(s, t, false)
    ensures ThreadOK(s', t)
  {
  }

  lemma CTryOK(s: State, t: nat, fail: bool)
    requires Inv(s) && Plainly(s, t) && s.threads[t].op.CTry?
    ensures Ready(s, t) && Inv(DoCTry(s, t, fail))
  {
    Unfold(s, t);
    if s.cells[s.threads[t].op.c].val == s.threads[t].op.cur && !fail {
      CTryHit(s, t);
    } else {
      CTryMiss(s, t, fail);
    }
  }

  lemma CTryMiss(s: State, t: nat, fail: bool)
    requires Inv(s) && Ready(s, t) && Plainly(s, t) && s.threads[t].op.CTry?
    requires s.cells[s.threads[t].op.c].val != s.threads[t].op.cur || fail
    ensures Inv(DoCTry(s, t, fail))
  {
    assert ThreadOK(s, t) && GuardOK(s, s.threads[t].op.g);
    CTryMissThread(s, t, fail);
    CTryMissShape(s, t, fail);
    QuietOp(s, DoCTry(s, t, fail), t);
  }

  lemma CTryMissShape(s: State, t: nat, fail: bool)
    requires Ready(s, t) && Plainly(s, t) && s.threads[t].op.CTry?
    requires s.cells[s.threads[t].op.c].val != s.threads[t].op.cur || fail
    ensures var s' := DoCTry(s, t, fail);
      && |s'.threads| == |s.threads| && s' == s.(threads := s.threads[t := s'.threads[t]])
      && SameHands(s.threads[t], s'.threads[t], |s.guards|) && SamePlace(s.threads[t], s'.threads[t], |s.nodes|)
      && (forall p :: ThreadOwns(s'.threads[t], p) == ThreadOwns(s.threads[t], p))
  {
  }

  lemma CTryMissThread(s: State, t: nat, fail: bool)
    requires Ready(s, t) && Plainly(s, t) && ThreadOK(s, t) && s.threads[t].op.CTry? && GuardOK(s, s.threads[t].op.g)
    requires s.cells[s.threads[t].op.c].val != s.threads[t].op.cur || fail
    ensures ThreadOK(DoCTry(s, t, fail), t)
  {
  }

  lemma BeginTakeOK(s: State, t: nat, c: nat, inner: bool)
    requires Inv(s) && AtRest(s, t) && 0 <= s.threads[t].node && IsLive(s, c)
    requires forall i :: 0 <= i < |s.threads| ==> !Borrows(s.threads[i], c)
    ensures Inv(DoBeginTake(s, t, c, inner))
  {
    assert ThreadOK(s, t);
    var s' := DoBeginTake(s, t, c, inner);
    TakenBalance(s, s', t, c);
    TakenStep(s, s', t, c);
  }

  // ---------------------------------------------------------------------------------------------
  // Beginnings

  lemma BeginLoadOK(s: State, t: nat, c: nat, full: bool)
    requires Inv(s) && AtRest(s, t) && 0 <= s.threads[t].node && IsLive(s, c)
    ensures Inv(DoBeginLoad(s, t, c, full))
  {
    assert ThreadOK(s, t) && CellOK(s, c);
    QuietOp(s, DoBeginLoad(s, t, c, full), t);
  }

  lemma BeginSwapOK(s: State, t: nat, c: nat, p: Ptr)
    requires Inv(s) && AtRest(s, t) && 0 <= s.threads[t].node && IsLive(s, c) && s.handles[p] > 0
    ensures Inv(DoBeginSwap(s, t, c, p))
  {
    assert ThreadOK(s, t);
    QuietOp(s, DoBeginSwap(s, t, c, p), t);
  }

  lemma BeginCasOK(s: State, t: nat, c: nat, cur: Ptr, p: Ptr)
    requires Inv(s) && AtRest(s, t) && 0 <= s.threads[t].node && IsLive(s, c) && s.handles[p] > 0
    ensures Inv(DoBeginCas(s, t, c, cur, p))
  {
    assert ThreadOK(s, t) && CellOK(s, c);
    QuietOp(s, DoBeginCas(s, t, c, cur, p), t);
  }

  /** The user gives a guard to thread `t`. */
  lemma HandIn(s: State, s': State, t: nat, g: nat)
    requires t < |s.threads| == |s'.threads| && g < |s.guards| && s.guards[g].status.Loose? && GuardOK(s, g)
    requires s'.guards == s.guards[g := s.guards[g].(status := Held(t))] && s'.nodes == s.nodes && s'.cells == s.cells
    requires forall i :: 0 <= i < |s.threads| && i != t ==> s'.threads[i] == s.threads[i]
    requires !s.threads[t].op.Sweeping? && CallHolds(s'.threads[t].call, g)
    ensures GuardOK(s', g)
  {
    var gd := s.guards[g];
    SameSeen(s, s', Ask(gd.src, 0, true), gd.ptr);
    if !gd.paid && gd.debt.At? && !Holds(s, gd.src, gd.ptr) {
      var w :| 0 <= w < |s.threads| && Covers(s.threads[w].op, gd.src, gd.ptr, gd.debt.node, gd.debt.slot);
      assert Covers(s'.threads[w].op, gd.src, gd.ptr, gd.debt.node, gd.debt.slot);
    }
  }

  lemma BeginDropThread(s: State, t: nat, g: nat)
    requires ThreadOK(s, t) && AtRest(s, t) && g < |s.guards| && GuardOK(s, g) && s.guards[g].status.Loose?
    ensures ThreadOK(DoBeginDrop(s, t, g), t)
  {
  }

  lemma BeginDropOK(s: State, t: nat, g: nat)
    requires Inv(s) && AtRest(s, t) && g < |s.guards| && s.guards[g].status.Loose?
    ensures Inv(DoBeginDrop(s, t, g))
  {
    assert ThreadOK(s, t) && GuardOK(s, g);
    var s' := DoBeginDrop(s, t, g);
    BeginDropThread(s, t, g);
    SameWriter(s, s', t);
    HandIn(s, s', t, g);
    HandBalance(s, s', t, g);
    HandStep(s, s', t, g);
  }

  lemma BeginIntoThread(s: State, t: nat, g: nat)
    requires ThreadOK(s, t) && AtRest(s, t) && g < |s.guards| && GuardOK(s, g) && s.guards[g].status.Loose?
    requires s.guards[g].debt.At?
    ensures ThreadOK(DoBeginInto(s, t, g), t)
  {
    SameSeen(s, DoBeginInto(s, t, g), Ask(s.guards[g].src, 0, true), s.guards[g].ptr);
  }

  lemma BeginIntoDebt(s: State, t: nat, g: nat)
    requires Inv(s) && AtRest(s, t) && g < |s.guards| && s.guards[g].status.Loose? && s.guards[g].debt.At?
    ensures Inv(DoBeginInto(s, t, g))
  {
    assert ThreadOK(s, t) && GuardOK(s, g);
    var s' := DoBeginInto(s, t, g);
    BeginIntoThread(s, t, g);
    SameWriter(s, s', t);
    HandIn(s, s', t, g);
    HandBalance(s, s', t, g);
    HandStep(s, s', t, g);
  }

  lemma BeginIntoOwned(s: State, t: nat, g: nat)
    requires Inv(s) && AtRest(s, t) && g < |s.guards| && s.guards[g].status.Loose? && !s.guards[g].debt.At?
    ensures Inv(DoBeginInto(s, t, g))
  {
    assert ThreadOK(s, t) && GuardOK(s, g);
    var s' := DoBeginInto(s, t, g);
    SameThreadOK(s, s', t);
    SameWriter(s, s', t);
    HandBalance(s, s', t, g);
    HandStep(s, s', t, g);
  }

  lemma SameThreadOK(s: State, s': State, t: nat)
    requires AtRest(s, t) && ThreadOK(s, t)
    requires s'.threads == s.threads && s'.nodes == s.nodes && s'.cells == s.cells && s'.env == s.env && s'.nextTxn == s.nextTxn
    ensures ThreadOK(s', t)
  {
  }

  lemma BeginGetOK(s: State, t: nat)
    requires Inv(s) && AtRest(s, t) && s.threads[t].node < 0
    ensures Inv(SetOp(s, t, GHead))
  {
    assert ThreadOK(s, t);
    QuietOp(s, SetOp(s, t, GHead), t);
  }

  lemma BeginExitOK(s: State, t: nat)
    requires Inv(s) && AtRest(s, t) && 0 <= s.threads[t].node
    ensures Inv(SetOp(s, t, XReserve))
  {
    assert ThreadOK(s, t);
    QuietOp(s, SetOp(s, t, XReserve), t);
  }

  // ---------------------------------------------------------------------------------------------
  // Actions of no thread in particular

  /** No thread, node or guard changes. */
  lemma Outside(s: State, s': State)
    requires Inv(s)
    requires s' == s.(threads := s'.threads, cells := s'.cells, refs := s'.refs, handles := s'.handles)
    requires s'.threads == s.threads || s'.threads == s.threads + [FreshThread]
    requires CellsFrame(s, s', |s.threads|) && Balanced(s')
    ensures Inv(s')
  {
    var u := |s.threads|;
    SameWriter(s, s', u);
    forall g | 0 <= g < |s.guards| ensures Kept(s, s', g) { assert GuardOK(s, g); }
    if u < |s'.threads| {
      forall g | 0 <= g < |s.guards| ensures StillMine(s, s', u, g) { assert GuardOK(s, g); }
    }
    forall n | 0 <= n < |s.nodes| ensures Envelope(s', n) == Envelope(s, n) { assert NodeOK(s, n); }
    SameEnvelopes(s, s');
    Commit(s, s', u, |s.guards|, |s.nodes|);
  }

  lemma SpawnOK(s: State)
    requires Inv(s)
    ensures Inv(s.(threads := s.threads + [FreshThread]))
  {
    var s' := s.(threads := s.threads + [FreshThread]);
    SameCells(s, s', |s.threads|);
    forall p ensures s'.refs[p] == Owned(s', p) {
      assert s.refs[p] == Owned(s, p);
      ThreadAppend(s.threads, FreshThread, p);
    }
    Outside(s, s');
  }

  lemma CountOK(s: State, s': State)
    requires Inv(s) && s' == s.(refs := s'.refs, handles := s'.handles)
    requires forall p :: s'.refs[p] + s.handles[p] == s.refs[p] + s'.handles[p]
    ensures Inv(s')
  {
    SameCells(s, s', |s.threads|);
    forall p ensures s'.refs[p] == Owned(s', p) { assert s.refs[p] == Owned(s, p); }
    Outside(s, s');
  }

  /** What the user holds outside is counted. */
  lemma HandleAlive(s: State, p: Ptr)
    requires Balanced(s) && s.handles[p] > 0
    ensures s.refs[p] > 0
  {
    assert s.refs[p] == Owned(s, p);
  }

  lemma NewCellOK(s: State, p: Ptr)
    requires Inv(s) && s.handles[p] > 0
    ensures Inv(s.(handles := Dec(s.handles, p), cells := s.cells + [Cell(true, p, [p])]))
  {
    var s' := s.(handles := Dec(s.handles, p), cells := s.cells + [Cell(true, p, [p])]);
    forall c | 0 <= c < |s.cells| ensures CellFrame(s, s', |s.threads|, c) { assert CellOK(s, c); }
    forall c | 0 <= c < |s'.cells| ensures CellOK(s', c) { if c < |s.cells| { assert CellOK(s, c); } }
    forall q ensures s'.refs[q] == Owned(s', q) {
      assert s.refs[q] == Owned(s, q);
      CellAppend(s.cells, Cell(true, p, [p]), q);
    }
    Outside(s, s');
  }
}
