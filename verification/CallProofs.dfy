/** Every access of a load, an `into_inner` or a guard drop preserves the invariant. */
module CallProofs {
  import opened Protocol
  import opened Steps
  import opened Invariant
  import opened Counting
  import opened Rely
  import opened Moves
  import opened CallMoves

  /** What a cell holds now has been seen since any version up to the current one. */
  lemma SeenNow(s: State, c: nat, since: nat)
    requires c < |s.cells| && CellOK(s, c) && since < |s.cells[c].hist|
    ensures Seen(s, c, since, s.cells[c].val)
  {
    assert s.cells[c].hist[|s.cells[c].hist| - 1] == s.cells[c].val;
  }

  lemma LStartOK(s: State, t: nat)
    requires Inv(s) && t < |s.threads| && s.threads[t].call.LStart?
    ensures Ready(s, t) && Inv(DoLStart(s, t))
  {
    Unfold(s, t);
    var ask := s.threads[t].call.ask;
    assert CellOK(s, ask.cell);
    SeenNow(s, ask.cell, ask.since);
    var s' := DoLStart(s, t);
    QuietCall(s, s', t, s'.threads[t].call);
  }

  lemma LScanOK(s: State, t: nat)
    requires Inv(s) && t < |s.threads| && s.threads[t].call.LScan?
    ensures Ready(s, t) && Inv(DoLScan(s, t))
  {
    Unfold(s, t);
    var s' := DoLScan(s, t);
    QuietCall(s, s', t, s'.threads[t].call);
  }

  lemma FReadOK(s: State, t: nat)
    requires Inv(s) && t < |s.threads| && s.threads[t].call.FRead?
    ensures Ready(s, t) && Inv(DoFRead(s, t))
  {
    Unfold(s, t);
    var ask := s.threads[t].call.ask;
    assert CellOK(s, ask.cell);
    SeenNow(s, ask.cell, ask.since);
    var s' := DoFRead(s, t);
    QuietCall(s, s', t, s'.threads[t].call);
  }

  lemma FEnvOK(s: State, t: nat)
    requires Inv(s) && t < |s.threads| && s.threads[t].call.FEnv?
    ensures Ready(s, t) && Inv(DoFEnv(s, t))
  {
    Unfold(s, t);
    var s' := DoFEnv(s, t);
    QuietCall(s, s', t, s'.threads[t].call);
  }

  lemma InIncOK(s: State, t: nat)
    requires Inv(s) && t < |s.threads| && s.threads[t].call.InInc?
    ensures Ready(s, t) && Inv(DoInInc(s, t))
  {
    Unfold(s, t);
    var s' := DoInInc(s, t);
    QuietCall(s, s', t, s'.threads[t].call);
  }

  // ---------------------------------------------------------------------------------------------
  // attempt

  lemma LPutOK(s: State, t: nat)
    requires Inv(s) && t < |s.threads| && s.threads[t].call.LPut?
    ensures Ready(s, t) && Inv(DoLPut(s, t))
  {
    Unfold(s, t);
    var LPut(ask, p, j) := s.threads[t].call;
    var s' := DoLPut(s, t);
    SameSeen(s, s', ask, p);
    BorrowCall(s, s', t, s'.threads[t], j, p, ask.cell);
  }

  lemma SameSeen(s: State, s': State, ask: Ask, p: Ptr)
    requires Seen(s, ask.cell, ask.since, p) && s'.cells == s.cells
    ensures Seen(s', ask.cell, ask.since, p)
  {
  }

  lemma LConfirmYes(s: State, t: nat)
    requires Inv(s) && Ready(s, t) && s.threads[t].call.LConfirm?
    requires s.cells[s.threads[t].call.ask.cell].val == s.threads[t].call.p
    ensures Inv(DoLConfirm(s, t))
  {
    Unfold(s, t);
    var LConfirm(ask, p, g) := s.threads[t].call;
    var s' := DoLConfirm(s, t);
    SameSeen(s, s', ask, p);
    GuardCall(s, s', t, s'.threads[t].call, g, s.guards[g].(status := Held(t)));
  }

  lemma LConfirmOK(s: State, t: nat)
    requires Inv(s) && t < |s.threads| && s.threads[t].call.LConfirm?
    ensures Ready(s, t) && Inv(DoLConfirm(s, t))
  {
    Unfold(s, t);
    var LConfirm(ask, p, g) := s.threads[t].call;
    assert CellOK(s, ask.cell);
    if s.cells[ask.cell].val == p {
      LConfirmYes(s, t);
    } else {
      LConfirmNo(s, t);
      QuietCall(s, DoLConfirm(s, t), t, LPay(ask, p, g));
    }
  }

  /** The cell has moved on since the read. */
  lemma LConfirmNo(s: State, t: nat)
    requires Ready(s, t) && ThreadOK(s, t) && s.threads[t].call.LConfirm? && CellOK(s, s.threads[t].call.ask.cell)
    requires s.cells[s.threads[t].call.ask.cell].val != s.threads[t].call.p
    ensures CallInOrder(DoLConfirm(s, t), t)
  {
    var LConfirm(ask, p, g) := s.threads[t].call;
    SameSeen(s, DoLConfirm(s, t), ask, p);
    var k :| ask.since <= k < |s.cells[ask.cell].hist| && s.cells[ask.cell].hist[k] == p;
    IdleCall(s, DoLConfirm(s, t), t);
  }

  lemma LPayHitCall(s: State, t: nat)
    requires Ready(s, t) && s.threads[t].call.LPay? && Owing(s, s.threads[t].call.g) && ThreadOK(s, t)
    ensures Suspended(s, DoLPay(s, t), t) && CallInOrder(DoLPay(s, t), t)
  {
    assert NodeShape(s, s.guards[s.threads[t].call.g].debt.node);
    IdleCall(s, DoLPay(s, t), t);
  }

  /** `Debt::pay` succeeds on our own debt: what happens to everybody else. */
  lemma LPayHit(s: State, t: nat)
    requires Inv(s) && Ready(s, t) && s.threads[t].call.LPay? && Owing(s, s.threads[t].call.g)
    ensures Inv(DoLPay(s, t))
  {
    Unfold(s, t);
    var LPay(ask, p, g) := s.threads[t].call;
    LPayHitCall(s, t);
    PayCall(s, DoLPay(s, t), t, FAddr(ask), g, s.guards[g].(status := Gone));
  }

  /** It was paid by a writer: the guard has a reference of its own. */
  lemma LPayMiss(s: State, t: nat)
    requires Inv(s) && Ready(s, t) && s.threads[t].call.LPay? && !Owing(s, s.threads[t].call.g)
    ensures Inv(DoLPay(s, t))
  {
    Unfold(s, t);
    var LPay(ask, p, g) := s.threads[t].call;
    var s' := DoLPay(s, t);
    SameSeen(s, s', ask, p);
    GuardCall(s, s', t, Done(ask, g), g, s.guards[g].(debt := NoDebt, status := Held(t)));
  }

  // ---------------------------------------------------------------------------------------------
  // fallback

  lemma FAddrOK(s: State, t: nat)
    requires Inv(s) && t < |s.threads| && s.threads[t].call.FAddr?
    ensures Ready(s, t) && Inv(DoFAddr(s, t))
  {
    Unfold(s, t);
    var s' := DoFAddr(s, t);
    var n := s.threads[t].node;
    NodeCall(s, s', t, s'.threads[t], n, s'.nodes[n]);
  }

  lemma FCtrlOK(s: State, t: nat)
    requires Inv(s) && t < |s.threads| && s.threads[t].call.FCtrl?
    ensures Ready(s, t) && Inv(DoFCtrl(s, t))
  {
    Unfold(s, t);
    var s' := DoFCtrl(s, t);
    var n := s.threads[t].node;
    NodeCall(s, s', t, s'.threads[t], n, s'.nodes[n]);
  }

  lemma OneOwner(s: State, n: nat, i: nat)
    requires Inv(s) && n < |s.nodes| && i < |s.threads| && s.threads[i].node == n
    ensures s.nodes[n].use == Used(i)
  {
    assert ThreadOK(s, i);
  }

  /** Between two fallback loads the helping slot is free. */
  lemma HelpingFree(s: State, t: nat)
    requires Inv(s) && t < |s.threads| && 0 <= s.threads[t].node
    requires forall g :: !OnHelping(s.threads[t].call, g)
    ensures s.threads[t].node < |s.nodes| && |s.nodes[s.threads[t].node].slots| == SLOTS
    ensures s.nodes[s.threads[t].node].slots[HELPING].Free?
  {
    assert ThreadOK(s, t);
    var n := s.threads[t].node;
    assert NodeOK(s, n) && SlotOK(s, n, HELPING);
    var sl := s.nodes[n].slots[HELPING];
    if sl.Owes? {
      assert GuardOK(s, sl.who);
      OneOwner(s, n, s.guards[sl.who].status.t);
    }
  }

  /** The candidate stays protected when only the own call advances. */
  lemma SameCand(s: State, s': State, t: nat)
    requires t < |s.threads| == |s'.threads| && CandOK(s, t) && s'.cells == s.cells
    requires s.threads[t].call.FSlot? && s'.threads[t].call.FConf? && s'.threads[t].op == s.threads[t].op
    requires s'.threads[t].call.ask == s.threads[t].call.ask && s'.threads[t].call.p == s.threads[t].call.p
    requires s'.threads[t].node == s.threads[t].node && |s'.nodes| == |s.nodes|
    requires forall i :: 0 <= i < |s.threads| && i != t ==> s'.threads[i] == s.threads[i]
    requires 0 <= s.threads[t].node < |s.nodes| ==> s'.nodes[s.threads[t].node].control == s.nodes[s.threads[t].node].control
    ensures CandOK(s', t)
  {
    var c, p, n := s.threads[t].call.ask.cell, s.threads[t].call.p, s.threads[t].node;
    if 0 <= n < |s.nodes| && s.nodes[n].control.Gen? && !Holds(s, c, p) {
      var w :| 0 <= w < |s.threads| && PreHelp(s.threads[w].op, c, p, n);
      assert PreHelp(s'.threads[w].op, c, p, n);
    }
  }

  lemma FSlotCall(s: State, t: nat)
    requires Ready(s, t) && ThreadOK(s, t) && s.threads[t].call.FSlot?
    ensures CallInOrder(DoFSlot(s, t), t) && Suspended(s, DoFSlot(s, t), t)
  {
    var FSlot(ask, x, p) := s.threads[t].call;
    var s' := DoFSlot(s, t);
    SameSeen(s, s', ask, p);
    SameCand(s, s', t);
  }

  lemma FSlotOK(s: State, t: nat)
    requires Inv(s) && t < |s.threads| && s.threads[t].call.FSlot?
    ensures Ready(s, t) && Inv(DoFSlot(s, t))
  {
    Unfold(s, t);
    HelpingFree(s, t);
    FSlotCall(s, t);
    var s' := DoFSlot(s, t);
    BorrowCall(s, s', t, s'.threads[t], HELPING, s.threads[t].call.p, s.threads[t].call.ask.cell);
  }

  // The control still holds our generation: the debt is confirmed.

  /** The candidate is protected now: whoever took it out has not come to our slot yet. */
  lemma Confirmed(s: State, s': State, t: nat)
    requires Ready(s, t) && ThreadOK(s, t) && s.threads[t].call.FConf? && s' == DoFConf(s, t)
    requires GuardOK(s, s.threads[t].call.g) && s.nodes[s.threads[t].node].control.Gen?
    ensures GuardOK(s', s.threads[t].call.g)
  {
    var FConf(ask, x, p, g) := s.threads[t].call;
    var n := s.threads[t].node;
    assert Seen(s, ask.cell, ask.since, p);
    if !Holds(s, ask.cell, p) {
      var w :| 0 <= w < |s.threads| && PreHelp(s.threads[w].op, ask.cell, p, n);
      assert Covers(s'.threads[w].op, ask.cell, p, n, HELPING);
    }
  }

  lemma FConfYesCall(s: State, t: nat)
    requires Ready(s, t) && ThreadOK(s, t) && s.threads[t].call.FConf? && s.nodes[s.threads[t].node].control.Gen?
    requires GuardOK(s, s.threads[t].call.g)
    ensures CallInOrder(DoFConf(s, t), t) && Suspended(s, DoFConf(s, t), t)
  {
    SameSeen(s, DoFConf(s, t), s.threads[t].call.ask, s.threads[t].call.p);
  }

  lemma FConfYesNode(s: State, t: nat)
    requires Ready(s, t) && ThreadOK(s, t) && s.threads[t].call.FConf? && s.nodes[s.threads[t].node].control.Gen?
    requires NodeOK(s, s.threads[t].node)
    ensures NodeOK(DoFConf(s, t), s.threads[t].node) && NodeFrame(s, DoFConf(s, t), t, s.threads[t].node)
  {
    var s' := DoFConf(s, t);
    var n := s.threads[t].node;
    forall j | 0 <= j < SLOTS ensures SlotOK(s', n, j) { assert SlotOK(s, n, j); }
  }

  lemma FConfYes(s: State, t: nat)
    requires Inv(s) && Ready(s, t) && s.threads[t].call.FConf? && s.nodes[s.threads[t].node].control.Gen?
    ensures Inv(DoFConf(s, t))
  {
    Unfold(s, t);
    var n, g := s.threads[t].node, s.threads[t].call.g;
    var s' := DoFConf(s, t);
    Confirmed(s, s', t);
    FConfYesCall(s, t);
    FConfYesNode(s, t);
    FConfYesStep(s, s', t);
    FConfYesRest(s, s', t);
    Commit(s, s', t, g, n);
  }

  lemma FConfYesRest(s: State, s': State, t: nat)
    requires Inv(s) && Ready(s, t) && s.threads[t].call.FConf? && s.nodes[s.threads[t].node].control.Gen?
    requires s.threads[t].gen == s.nodes[s.threads[t].node].control.gen && s' == DoFConf(s, t)
    requires CallInOrder(s', t) && Suspended(s, s', t)
    ensures ThreadOK(s', t) && EnvelopesOK(s') && Balanced(s')
  {
    Unfold(s, t);
    SuspendedThread(s, s', t);
    NodeEnvelopes(s, s', t, s.threads[t].node);
    FConfBalance(s, s', t);
  }

  lemma FConfYesStep(s: State, s': State, t: nat)
    requires Inv(s) && Ready(s, t) && s.threads[t].call.FConf? && s.nodes[s.threads[t].node].control.Gen?
    requires s.threads[t].gen == s.nodes[s.threads[t].node].control.gen && s' == DoFConf(s, t)
    requires s.guards[s.threads[t].call.g].status == Pending(t)
    requires GuardOK(s', s.threads[t].call.g)
    requires NodeOK(s', s.threads[t].node) && NodeFrame(s, s', t, s.threads[t].node)
    ensures Step(s, s', t, s.threads[t].call.g, s.threads[t].node)
  {
    SameWriter(s, s', t);
    SameCells(s, s', t);
    PlainStep(s, s', t, s.threads[t].call.g, s.threads[t].node);
  }

  lemma FConfBalance(s: State, s': State, t: nat)
    requires Ready(s, t) && Balanced(s) && s.threads[t].call.FConf? && s.nodes[s.threads[t].node].control.Gen?
    requires s.threads[t].gen == s.nodes[s.threads[t].node].control.gen && s' == DoFConf(s, t)
    ensures Balanced(s')
  {
    var n, g := s.threads[t].node, s.threads[t].call.g;
    forall p ensures s'.refs[p] == Owned(s', p) {
      assert s.refs[p] == Owned(s, p);
      NodeSum(s.nodes, n, s'.nodes[n], p);
      GuardSum(s.guards, g, s'.guards[g], p);
      ThreadSum(s.threads, t, s'.threads[t], p);
    }
  }

  // A writer put a replacement there.

  lemma FConfNo(s: State, t: nat)
    requires Inv(s) && Ready(s, t) && s.threads[t].call.FConf? && s.nodes[s.threads[t].node].control.Repl?
    ensures Inv(DoFConf(s, t))
  {
    Unfold(s, t);
    var FConf(ask, x, p, g) := s.threads[t].call;
    var n := s.threads[t].node;
    var s' := DoFConf(s, t);
    SameSeen(s, s', ask, s.nodes[n].control.val);
    NodeCall(s, s', t, s'.threads[t], n, s'.nodes[n]);
  }

  lemma FConfOK(s: State, t: nat)
    requires Inv(s) && t < |s.threads| && s.threads[t].call.FConf?
    ensures Ready(s, t) && Inv(DoFConf(s, t))
  {
    Unfold(s, t);
    if s.nodes[s.threads[t].node].control.Gen? { FConfYes(s, t); } else { FConfNo(s, t); }
  }

  lemma FOfferOK(s: State, t: nat)
    requires Inv(s) && t < |s.threads| && s.threads[t].call.FOffer?
    ensures Ready(s, t) && Inv(DoFOffer(s, t))
  {
    Unfold(s, t);
    var FOffer(ask, p, g, e, r) := s.threads[t].call;
    var n := s.threads[t].node;
    var s' := DoFOffer(s, t);
    SameSeen(s, s', ask, r);
    NodeCall(s, s', t, s'.threads[t], n, s'.nodes[n]);
  }

  lemma FPayHitCall(s: State, t: nat)
    requires Ready(s, t) && s.threads[t].call.FPay? && Owing(s, s.threads[t].call.g)
    requires ThreadOK(s, t) && GuardOK(s, s.threads[t].call.g)
    ensures Suspended(s, DoFPay(s, t), t) && CallInOrder(DoFPay(s, t), t)
    ensures GuardOK(DoFPay(s, t), s.threads[t].call.g)
  {
    var FPay(ask, p, g, r) := s.threads[t].call;
    var s' := DoFPay(s, t);
    SameSeen(s, s', ask, r);
    IdleCall(s, s', t);
  }

  lemma FPayHit(s: State, t: nat)
    requires Inv(s) && Ready(s, t) && s.threads[t].call.FPay? && Owing(s, s.threads[t].call.g)
    ensures Inv(DoFPay(s, t))
  {
    Unfold(s, t);
    var FPay(ask, p, g, r) := s.threads[t].call;
    var s' := DoFPay(s, t);
    FPayHitCall(s, t);
    PayCall(s, s', t, Done(ask, g), g, Guard(r, NoDebt, true, ask.cell, Held(t)));
  }

  lemma FPayMiss(s: State, t: nat)
    requires Inv(s) && Ready(s, t) && s.threads[t].call.FPay? && !Owing(s, s.threads[t].call.g)
    ensures Inv(DoFPay(s, t))
  {
    Unfold(s, t);
    var FPay(ask, p, g, r) := s.threads[t].call;
    var s' := DoFPay(s, t);
    SameSeen(s, s', ask, r);
    GuardCall(s, s', t, FDec(ask, p, g, r), g, s.guards[g].(debt := NoDebt));
  }

  lemma FDecOK(s: State, t: nat)
    requires Inv(s) && t < |s.threads| && s.threads[t].call.FDec?
    ensures Ready(s, t) && Inv(DoFDec(s, t))
  {
    Unfold(s, t);
    var FDec(ask, p, g, r) := s.threads[t].call;
    var s' := DoFDec(s, t);
    SameSeen(s, s', ask, r);
    PaidAlive(s, g);
    GuardCall(s, s', t, Done(ask, g), g, Guard(r, NoDebt, true, ask.cell, Held(t)));
  }

  /** A guard that was paid keeps its object alive. */
  lemma PaidAlive(s: State, g: nat)
    requires Balanced(s) && g < |s.guards| && !s.guards[g].status.Gone? && s.guards[g].paid
    ensures s.refs[s.guards[g].ptr] > 0
  {
    GuardPart(s.guards, g, s.guards[g].ptr);
    assert s.refs[s.guards[g].ptr] == Owned(s, s.guards[g].ptr);
  }

  /** So does a thread. */
  lemma ThreadAlive(s: State, t: nat, p: Ptr)
    requires Balanced(s) && t < |s.threads| && ThreadOwns(s.threads[t], p) > 0
    ensures s.refs[p] > 0
  {
    ThreadPart(s.threads, t, p);
    assert s.refs[p] == Owned(s, p);
  }

  // ---------------------------------------------------------------------------------------------
  // into_inner and drop

  lemma InPayHitCall(s: State, t: nat)
    requires Ready(s, t) && s.threads[t].call.InPay? && Owing(s, s.threads[t].call.g)
    requires ThreadOK(s, t) && GuardOK(s, s.threads[t].call.g)
    ensures CallInOrder(DoInPay(s, t), t)
  {
    var InPay(ask, p, g) := s.threads[t].call;
    assert NodeShape(s, s.guards[g].debt.node);
    var s' := DoInPay(s, t);
    SameSeen(s, s', ask, p);
    IdleCall(s, s', t);
  }

  lemma InPayHitSuspended(s: State, t: nat)
    requires Ready(s, t) && s.threads[t].call.InPay? && Owing(s, s.threads[t].call.g)
    requires OwnOK(s, t)
    ensures Suspended(s, DoInPay(s, t), t)
  {
    assert NodeShape(s, s.guards[s.threads[t].call.g].debt.node);
  }

  lemma InPayHitGuard(s: State, t: nat)
    requires Ready(s, t) && s.threads[t].call.InPay? && Owing(s, s.threads[t].call.g)
    requires CallOK(s, t) && GuardOK(s, s.threads[t].call.g)
    ensures GuardOK(DoInPay(s, t), s.threads[t].call.g)
  {
    var InPay(ask, p, g) := s.threads[t].call;
    assert NodeShape(s, s.guards[g].debt.node);
    SameSeen(s, DoInPay(s, t), Ask(s.guards[g].src, 0, true), p);
  }

  lemma InPayHit(s: State, t: nat)
    requires Inv(s) && Ready(s, t) && s.threads[t].call.InPay? && Owing(s, s.threads[t].call.g)
    ensures Inv(DoInPay(s, t))
  {
    Unfold(s, t);
    var InPay(ask, p, g) := s.threads[t].call;
    var s' := DoInPay(s, t);
    InPayHitCall(s, t);
    InPayHitSuspended(s, t);
    InPayHitGuard(s, t);
    PayCall(s, s', t, Done(ask, g), g, s.guards[g].(debt := NoDebt, paid := true));
  }

  lemma InPayMissCall(s: State, t: nat)
    requires Ready(s, t) && s.threads[t].call.InPay? && !Owing(s, s.threads[t].call.g)
    requires ThreadOK(s, t) && GuardOK(s, s.threads[t].call.g)
    ensures CallInOrder(DoInPay(s, t), t) && GuardOK(DoInPay(s, t), s.threads[t].call.g)
  {
    var InPay(ask, p, g) := s.threads[t].call;
    var s' := DoInPay(s, t);
    SameSeen(s, s', ask, p);
    SameSeen(s, s', Ask(s.guards[g].src, 0, true), p);
    IdleCall(s, s', t);
  }

  lemma InPayMiss(s: State, t: nat)
    requires Inv(s) && Ready(s, t) && s.threads[t].call.InPay? && !Owing(s, s.threads[t].call.g)
    ensures Inv(DoInPay(s, t))
  {
    Unfold(s, t);
    var InPay(ask, p, g) := s.threads[t].call;
    var s' := DoInPay(s, t);
    InPayMissCall(s, t);
    GuardCall(s, s', t, InDec(ask, p, g), g, s.guards[g].(debt := NoDebt));
  }

  lemma InDecCall(s: State, t: nat)
    requires Ready(s, t) && s.threads[t].call.InDec? && ThreadOK(s, t)
    ensures CallInOrder(DoInDec(s, t), t)
  {
    var s' := DoInDec(s, t);
    SameSeen(s, s', s.threads[t].call.ask, s.threads[t].call.p);
    IdleCall(s, s', t);
  }

  lemma InDecOK(s: State, t: nat)
    requires Inv(s) && t < |s.threads| && s.threads[t].call.InDec?
    ensures Ready(s, t) && Inv(DoInDec(s, t))
  {
    Unfold(s, t);
    var InDec(ask, p, g) := s.threads[t].call;
    var s' := DoInDec(s, t);
    PaidAlive(s, g);
    InDecCall(s, t);
    QuietCall(s, s', t, Done(ask, g));
  }

  lemma DrPayHit(s: State, t: nat)
    requires Inv(s) && Ready(s, t) && s.threads[t].call.DrPay? && Owing(s, s.threads[t].call.g)
    ensures Inv(DoDrPay(s, t))
  {
    Unfold(s, t);
    var g := s.threads[t].call.g;
    PayCall(s, DoDrPay(s, t), t, Dropped, g, s.guards[g].(status := Gone));
  }

  lemma DrPayMiss(s: State, t: nat)
    requires Inv(s) && Ready(s, t) && s.threads[t].call.DrPay? && !Owing(s, s.threads[t].call.g)
    ensures Inv(DoDrPay(s, t))
  {
    Unfold(s, t);
    var g := s.threads[t].call.g;
    GuardCall(s, DoDrPay(s, t), t, DrDec(g), g, s.guards[g].(debt := NoDebt));
  }

  lemma DrDecCall(s: State, t: nat)
    requires Ready(s, t) && s.threads[t].call.DrDec? && ThreadOK(s, t)
    ensures CallInOrder(DoDrDec(s, t), t)
  {
    IdleCall(s, DoDrDec(s, t), t);
  }

  lemma DrDecCounts(s: State, t: nat)
    requires Ready(s, t) && s.threads[t].call.DrDec? && s.guards[s.threads[t].call.g].paid && s.refs[s.guards[s.threads[t].call.g].ptr] > 0
    ensures var gd := s.guards[s.threads[t].call.g];
      forall p :: DoDrDec(s, t).refs[p] - CallOwns(Dropped, p) - GuardHolds(gd.(status := Gone), p) ==
                  s.refs[p] - CallOwns(s.threads[t].call, p) - GuardHolds(gd, p)
  {
  }

  lemma DrDecGuard(s: State, t: nat)
    requires Ready(s, t) && s.threads[t].call.DrDec? && s.guards[s.threads[t].call.g].paid
    ensures var g := s.threads[t].call.g; GuardOK(DoDrDec(s, t), g) && KeepsDebt(s.guards[g], s.guards[g].(status := Gone))
  {
  }

  lemma DrDecOK(s: State, t: nat)
    requires Inv(s) && t < |s.threads| && s.threads[t].call.DrDec?
    ensures Ready(s, t) && Inv(DoDrDec(s, t))
  {
    Unfold(s, t);
    PaidAlive(s, s.threads[t].call.g);
    DrDecDone(s, t);
  }

  lemma DrDecDone(s: State, t: nat)
    requires Inv(s) && Ready(s, t) && s.threads[t].call.DrDec? && ThreadOK(s, t)
    requires s.guards[s.threads[t].call.g].paid && s.refs[s.guards[s.threads[t].call.g].ptr] > 0
    ensures Inv(DoDrDec(s, t))
  {
    var g := s.threads[t].call.g;
    DrDecCall(s, t);
    DrDecCounts(s, t);
    DrDecGuard(s, t);
    GuardCall(s, DoDrDec(s, t), t, Dropped, g, s.guards[g].(status := Gone));
  }
}
