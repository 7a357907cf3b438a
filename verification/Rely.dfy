/**
 What one step of thread `u` may do to everybody else (the guarantee of a step, and the rely of the
 other threads), and the lemmas that every assertion survives it.
 A step touches at most guard `x` and node `y`, besides marking one guard as paid.
 An index past the end stands for "none".
 */
module Rely {
  import opened Protocol
  import opened Steps
  import opened Invariant

  ghost predicate ThreadsFrame(s: State, s': State, u: nat) {
    && |s.threads| <= |s'.threads|
    && (forall i :: 0 <= i < |s.threads| && i != u ==> s'.threads[i] == s.threads[i])
    && (forall i :: |s.threads| <= i < |s'.threads| ==> s'.threads[i] == FreshThread)
    && (u < |s.threads| ==>
          var a, b := s.threads[u], s'.threads[u];
          && a.gen <= b.gen
          && (b.call.FCtrl? ==> a.call.FCtrl? || a.gen < b.gen)
          && (Published(a.call) && Published(b.call) ==> a.call.ask == b.call.ask && a.call.x == b.call.x))
    && s.nextTxn <= s'.nextTxn
  }

  ghost predicate CellFrame(s: State, s': State, u: nat, c: nat)
    requires c < |s.cells| && c < |s'.cells|
  {
    && s.cells[c].hist <= s'.cells[c].hist
    && (s'.cells[c].live ==> s.cells[c].live)
    && (s.cells[c].live && !s'.cells[c].live ==>
          forall i :: 0 <= i < |s.threads| && i != u ==> !Borrows(s.threads[i], c))
    && (s.cells[c].live && (!s'.cells[c].live || s'.cells[c].val != s.cells[c].val) ==>
          && u < |s.threads| && u < |s'.threads| && s'.threads[u].op.Sweeping? && s'.threads[u].op.pc.Prepay?
          && s'.threads[u].op.job.cell == c && s'.threads[u].op.job.out == s.cells[c].val)
  }

  ghost predicate CellsFrame(s: State, s': State, u: nat) {
    && |s.cells| <= |s'.cells|
    && (forall c :: 0 <= c < |s.cells| ==> CellFrame(s, s', u, c))
    && (forall c :: 0 <= c < |s'.cells| ==> CellOK(s', c))
  }

  /** Guard `g` is as before, except that its debt may have been paid. */
  ghost predicate Kept(s: State, s': State, g: nat)
    requires g < |s.guards| && g < |s'.guards|
  {
    var gd, gd' := s.guards[g], s'.guards[g];
    && (gd' == gd || gd' == gd.(paid := true))
    && (!gd.status.Gone? && gd.debt.At? ==>
          && gd.debt.node < |s'.nodes| && gd.debt.slot < |s'.nodes[gd.debt.node].slots|
          && (gd'.paid <==> s'.nodes[gd.debt.node].slots[gd.debt.slot] != Owes(gd.ptr, g)))
  }

  /** If guard `g` is in the hands of `u`, it stays there. */
  ghost predicate StillMine(s: State, s': State, u: nat, g: nat)
    requires g < |s.guards| && u < |s'.threads|
  {
    var gd := s.guards[g];
    var th := s'.threads[u];
    && (gd.status == Pending(u) ==> CallPends(th.call, g))
    && (gd.status == Held(u) ==> CallHolds(th.call, g) || OpHolds(th.op, g))
    && ((gd.status == Pending(u) || gd.status == Held(u)) && gd.debt.At? && gd.debt.slot == HELPING ==>
          th.node == gd.debt.node && OnHelping(th.call, g))
  }

  ghost predicate GuardsFrame(s: State, s': State, u: nat, x: nat) {
    && |s.guards| <= |s'.guards| <= |s.guards| + 1
    && (|s.guards| < |s'.guards| ==> x == |s.guards|)
    && (forall g :: 0 <= g < |s.guards| && g != x ==> Kept(s, s', g))
    && (u < |s'.threads| ==> forall g :: 0 <= g < |s.guards| && g != x ==> StillMine(s, s', u, g))
    && (x < |s.guards| ==> s.guards[x].status.Loose? || s.guards[x].status == Pending(u) || s.guards[x].status == Held(u))
    && (x < |s'.guards| ==> GuardOK(s', x))
  }

  /** What `u` may do to a node that existed before. */
  ghost predicate NodeFrame(s: State, s': State, u: nat, n: nat)
    requires n < |s.nodes| && n < |s'.nodes| && u < |s.threads| && u < |s'.threads|
  {
    var a, b := s.nodes[n], s'.nodes[n];
    && (forall i :: i != u ==> (i in a.inside <==> i in b.inside))
    && (a.inside != {} && !a.use.Unused? ==> !b.use.Unused?)
    && (b.use.Used? ==> b.use == a.use || (a.use.Unused? && b.use == Used(u)))
    && (a.use.Used? && a.use.owner != u ==>
          && b.use == a.use && b.addr == a.addr && b.offer == a.offer
          && |a.slots| == |b.slots|
          && (forall j :: 0 <= j < |a.slots| && a.slots[j].Free? ==> b.slots[j].Free?)
          && (b.control == a.control || (a.control.Gen? && b.control.Repl? && GoodReply(s', n, a.use.owner))))
    && (b.control.Gen? && b.control != a.control ==>
          && a.use == Used(u) && s.threads[u].call.FCtrl? && s.nextTxn <= b.control.txn
          && b.control.gen == s.threads[u].gen)
    && (b.control.Gen? && b.control == a.control ==> b.addr == a.addr && b.offer == a.offer)
    && (b.addr != a.addr ==> IsLive(s', b.addr))
  }

  /** The replacement in the control of node `n` is one its owner can use. */
  ghost predicate GoodReply(s': State, n: nat, i: nat)
    requires n < |s'.nodes| && s'.nodes[n].control.Repl?
  {
    var k := s'.nodes[n].control;
    && k.env < |s'.env| && s'.env[k.env] == k.val
    && i < |s'.threads|
    && (Published(s'.threads[i].call) ==> Seen(s', s'.threads[i].call.ask.cell, s'.threads[i].call.ask.since, k.val))
  }

  ghost predicate StillInside(s: State, s': State, u: nat, n: nat) {
    && u < |s.threads| && u < |s'.threads|
    && (InsideOf(s.threads[u].op, s.threads[u].node, n) ==> InsideOf(s'.threads[u].op, s'.threads[u].node, n))
    && (s.threads[u].node == n ==> s'.threads[u].node == n)
  }

  ghost predicate NodesFrame(s: State, s': State, u: nat, y: nat) {
    && |s.nodes| <= |s'.nodes| <= |s.nodes| + 1
    && Frame(s')
    && (|s.nodes| < |s'.nodes| ==> y == |s.nodes| && s'.nodes[y].control == Control.Idle)
    && (forall n :: 0 <= n < |s.nodes| && n != y ==> s'.nodes[n] == s.nodes[n])
    && (u < |s.threads| ==> forall n :: 0 <= n < |s.nodes| && n != y ==> StillInside(s, s', u, n))
    && (y < |s.nodes| ==> u < |s.threads| && u < |s'.threads| && NodeFrame(s, s', u, y))
    && (y < |s'.nodes| ==> NodeOK(s', y))
  }

  /** An unpaid debt in another node than `y` is left alone. */
  ghost predicate DebtFrame(s: State, s': State, x: nat, y: nat) {
    x < |s.guards| && x < |s'.guards| && !s.guards[x].paid && !s.guards[x].status.Gone? &&
    s.guards[x].debt.At? && s.guards[x].debt.node != y ==>
      && s'.guards[x].ptr == s.guards[x].ptr && s'.guards[x].debt == s.guards[x].debt
      && !s'.guards[x].paid && !s'.guards[x].status.Gone?
  }

  /** Only the writer's own envelope changes. */
  ghost predicate EnvFrame(s: State, s': State, u: nat) {
    && |s.env| <= |s'.env|
    && (forall e :: 0 <= e < |s.env| && s'.env[e] != s.env[e] ==>
          && u < |s.threads| && 0 <= s.threads[u].node < |s.nodes| && e == Envelope(s, s.threads[u].node))
  }

  /** A writer leaves `help` on a node only when no transaction on its cell is open there ... */
  ghost predicate HelpFrame(s: State, s': State, u: nat, n: nat)
    requires n < |s'.nodes|
  {
    u < |s.threads| && u < |s'.threads| ==>
      forall c, p :: PreHelp(s.threads[u].op, c, p, n) && !PreHelp(s'.threads[u].op, c, p, n) ==>
        s'.nodes[n].control.Gen? ==> s'.nodes[n].addr != c
  }

  /** ... and passes a slot only when the slot does not owe its pointer. */
  ghost predicate PassFrame(s: State, s': State, u: nat, n: nat, j: nat)
    requires n < |s'.nodes| && j < |s'.nodes[n].slots|
  {
    u < |s.threads| && u < |s'.threads| ==>
      forall c, p :: Covers(s.threads[u].op, c, p, n, j) && !Covers(s'.threads[u].op, c, p, n, j) ==>
        !Hits(s', n, j, p)
  }

  ghost predicate WriterFrame(s: State, s': State, u: nat) {
    && (forall n :: 0 <= n < |s'.nodes| ==> HelpFrame(s, s', u, n))
    && (forall n, j :: 0 <= n < |s'.nodes| && 0 <= j < |s'.nodes[n].slots| ==> PassFrame(s, s', u, n, j))
  }

  ghost predicate Step(s: State, s': State, u: nat, x: nat, y: nat) {
    && ThreadsFrame(s, s', u)
    && CellsFrame(s, s', u)
    && GuardsFrame(s, s', u, x)
    && NodesFrame(s, s', u, y)
    && DebtFrame(s, s', x, y)
    && EnvFrame(s, s', u)
    && WriterFrame(s, s', u)
  }

  // ---------------------------------------------------------------------------------------------
  // Stability

  lemma SeenStable(s: State, s': State, u: nat, c: nat, since: nat, p: Ptr)
    requires CellsFrame(s, s', u) && Seen(s, c, since, p)
    ensures Seen(s', c, since, p)
  {
    assert CellFrame(s, s', u, c);
    var k :| since <= k < |s.cells[c].hist| && s.cells[c].hist[k] == p;
    assert s'.cells[c].hist[k] == p;
  }

  lemma OwnStable(s: State, s': State, u: nat, x: nat, y: nat, t: nat)
    requires Step(s, s', u, x, y) && t < |s.threads| && t != u && OwnOK(s, t)
    ensures OwnOK(s', t)
  {
    assert s'.threads[t] == s.threads[t];
    var n := s.threads[t].node;
    if 0 <= n {
      if n == y { assert NodeFrame(s, s', u, y); } else { assert s'.nodes[n] == s.nodes[n]; }
    }
  }

  /** The envelope of another thread's node is not written to. */
  lemma EnvStable(s: State, s': State, u: nat, t: nat, e: nat)
    requires EnvFrame(s, s', u) && EnvelopesOK(s) && e < |s.env|
    requires t < |s.threads| && t != u && OwnOK(s, t) && 0 <= s.threads[t].node
    requires u < |s.threads| ==> OwnOK(s, u)
    requires Envelope(s, s.threads[t].node) == e
    ensures s'.env[e] == s.env[e]
  {
    if u < |s.threads| && 0 <= s.threads[u].node {
      var m, n := s.threads[t].node, s.threads[u].node;
      assert m != n;
      if m < n { assert Envelope(s, m) != Envelope(s, n); } else { assert Envelope(s, n) != Envelope(s, m); }
    }
  }

  /** How the node of another thread may change. */
  lemma NodeStable(s: State, s': State, u: nat, x: nat, y: nat, t: nat)
    requires Step(s, s', u, x, y) && t < |s.threads| && t != u && OwnOK(s, t) && 0 <= s.threads[t].node
    ensures var a, b := s.nodes[s.threads[t].node], s'.nodes[s.threads[t].node];
      && b.use == a.use && b.addr == a.addr && b.offer == a.offer && |a.slots| == |b.slots|
      && (forall j :: 0 <= j < |a.slots| && a.slots[j].Free? ==> b.slots[j].Free?)
      && (b.control == a.control || (a.control.Gen? && b.control.Repl? && GoodReply(s', s.threads[t].node, t)))
  {
    var n := s.threads[t].node;
    if n == y { assert NodeFrame(s, s', u, y); } else { assert s'.nodes[n] == s.nodes[n]; }
  }

  lemma CtlStable(s: State, s': State, u: nat, x: nat, y: nat, t: nat)
    requires Step(s, s', u, x, y) && t < |s.threads| && t != u && OwnOK(s, t) && CtlOK(s, t)
    requires u < |s.threads| ==> OwnOK(s, u)
    requires EnvelopesOK(s) && |s.env| == |s.nodes|
    ensures CtlOK(s', t)
  {
    var th := s.threads[t];
    assert s'.threads[t] == th;
    if 0 <= th.node {
      NodeStable(s, s', u, x, y, t);
      var a, b := s.nodes[th.node], s'.nodes[th.node];
      if Published(th.call) && b.control == a.control && a.control.Repl? {
        EnvStable(s, s', u, t, a.control.env);
        SeenStable(s, s', u, th.call.ask.cell, th.call.ask.since, a.control.val);
      }
    }
  }

  /** A guard in the hands of another thread changes only by being paid. */
  lemma MyGuard(s: State, s': State, u: nat, x: nat, t: nat, g: nat)
    requires GuardsFrame(s, s', u, x) && t != u && g < |s.guards|
    requires s.guards[g].status == Pending(t) || s.guards[g].status == Held(t)
    ensures s'.guards[g] == s.guards[g] || s'.guards[g] == s.guards[g].(paid := true)
  {
    assert Kept(s, s', g);
  }

  lemma LiveStable(s: State, s': State, u: nat, t: nat, c: nat)
    requires CellsFrame(s, s', u) && t < |s.threads| && t != u
    requires IsLive(s, c) && Borrows(s.threads[t], c)
    ensures IsLive(s', c)
  {
    assert CellFrame(s, s', u, c);
  }

  lemma CallStable(s: State, s': State, u: nat, x: nat, y: nat, t: nat)
    requires Step(s, s', u, x, y) && t < |s.threads| && t != u && OwnOK(s, t) && CallOK(s, t) && CtlOK(s, t)
    requires u < |s.threads| ==> OwnOK(s, u)
    requires EnvelopesOK(s) && |s.env| == |s.nodes|
    ensures CallOK(s', t)
  {
    var th := s.threads[t];
    var c := th.call;
    assert s'.threads[t] == th;
    if UsesCell(c) { CellStable(s, s', u, t); }
    if 0 <= th.node { NodeStable(s, s', u, x, y, t); }
    if HasGuard(c) { MyGuard(s, s', u, x, t, c.g); }
    CallSeenStable(s, s', u, t);
    if c.FEnv? { EnvStable(s, s', u, t, c.e); }
  }

  lemma CellStable(s: State, s': State, u: nat, t: nat)
    requires CellsFrame(s, s', u) && t < |s.threads| && t != u && CallOK(s, t) && UsesCell(s.threads[t].call)
    ensures var ask := s.threads[t].call.ask;
      IsLive(s', ask.cell) && ask.since < |s'.cells[ask.cell].hist| && Now(s, ask.cell) <= Now(s', ask.cell)
  {
    LiveStable(s, s', u, t, s.threads[t].call.ask.cell);
    assert CellFrame(s, s', u, s.threads[t].call.ask.cell);
  }

  /** What a call has seen stays seen. */
  lemma CallSeenStable(s: State, s': State, u: nat, t: nat)
    requires CellsFrame(s, s', u) && t < |s.threads| && CallOK(s, t)
    ensures match s.threads[t].call
      case LScan(ask, p, _) => Seen(s', ask.cell, ask.since, p)
      case LPut(ask, p, _) => Seen(s', ask.cell, ask.since, p)
      case LConfirm(ask, p, _) => Seen(s', ask.cell, ask.since, p)
      case LPay(ask, p, _) => Seen(s', ask.cell, ask.since, p)
      case FSlot(ask, _, p) => Seen(s', ask.cell, ask.since, p)
      case FConf(ask, _, p, _) => Seen(s', ask.cell, ask.since, p)
      case FEnv(ask, _, _, _, r) => Seen(s', ask.cell, ask.since, r)
      case FOffer(ask, _, _, _, r) => Seen(s', ask.cell, ask.since, r)
      case FPay(ask, _, _, r) => Seen(s', ask.cell, ask.since, r)
      case FDec(ask, _, _, r) => Seen(s', ask.cell, ask.since, r)
      case InInc(ask, p, _) => Seen(s', ask.cell, ask.since, p)
      case InPay(ask, p, _) => Seen(s', ask.cell, ask.since, p)
      case InDec(ask, p, _) => Seen(s', ask.cell, ask.since, p)
      case Done(ask, g) => Seen(s', ask.cell, ask.since, s.guards[g].ptr)
      case _ => true
  {
    match s.threads[t].call
    case LScan(ask, p, _) => SeenStable(s, s', u, ask.cell, ask.since, p);
    case LPut(ask, p, _) => SeenStable(s, s', u, ask.cell, ask.since, p);
    case LConfirm(ask, p, _) => SeenStable(s, s', u, ask.cell, ask.since, p);
    case LPay(ask, p, _) => SeenStable(s, s', u, ask.cell, ask.since, p);
    case FSlot(ask, _, p) => SeenStable(s, s', u, ask.cell, ask.since, p);
    case FConf(ask, _, p, _) => SeenStable(s, s', u, ask.cell, ask.since, p);
    case FEnv(ask, _, _, _, r) => SeenStable(s, s', u, ask.cell, ask.since, r);
    case FOffer(ask, _, _, _, r) => SeenStable(s, s', u, ask.cell, ask.since, r);
    case FPay(ask, _, _, r) => SeenStable(s, s', u, ask.cell, ask.since, r);
    case FDec(ask, _, _, r) => SeenStable(s, s', u, ask.cell, ask.since, r);
    case InInc(ask, p, _) => SeenStable(s, s', u, ask.cell, ask.since, p);
    case InPay(ask, p, _) => SeenStable(s, s', u, ask.cell, ask.since, p);
    case InDec(ask, p, _) => SeenStable(s, s', u, ask.cell, ask.since, p);
    case Done(ask, g) => SeenStable(s, s', u, ask.cell, ask.since, s.guards[g].ptr);
    case _ =>
  }

  lemma OpStable(s: State, s': State, u: nat, x: nat, y: nat, t: nat)
    requires Step(s, s', u, x, y) && t < |s.threads| && t != u && OwnOK(s, t) && OpOK(s, t)
    ensures OpOK(s', t)
  {
    var th := s.threads[t];
    assert s'.threads[t] == th;
    forall n {:trigger s'.nodes[n]} | 0 <= n < |s'.nodes| && InsideOf(th.op, th.node, n)
      ensures t in s'.nodes[n].inside
    {
      assert n < |s.nodes|;
      assert t in s.nodes[n].inside;
      if n == y { assert NodeFrame(s, s', u, y); } else { assert s'.nodes[n] == s.nodes[n]; }
    }
    match th.op
    case Swapping(c, _) => LiveStable(s, s', u, t, c);
    case CLoad(c, _, _) => LiveStable(s, s', u, t, c);
    case CTry(c, _, _, g) => LiveStable(s, s', u, t, c); MyGuard(s, s', u, x, t, g);
    case CRetry(c, _, _) => LiveStable(s, s', u, t, c);
    case CKeep(_, _, g) => MyGuard(s, s', u, x, t, g);
    case Sweeping(job, _) =>
      assert CellFrame(s, s', u, job.cell);
      if s.cells[job.cell].live { LiveStable(s, s', u, t, job.cell); }
      if job.kind.KCas? { MyGuard(s, s', u, x, t, job.kind.g); }
    case _ =>
  }

  lemma GenStable(s: State, s': State, u: nat, x: nat, y: nat, t: nat, o: Obs)
    requires Step(s, s', u, x, y) && t < |s.threads| && t != u
    requires o.n < |s.nodes| && GenOK(s, o) && t in s.nodes[o.n].inside
    ensures GenOK(s', o)
  {
    var a, b := s.nodes[o.n], s'.nodes[o.n];
    if o.n == y { assert NodeFrame(s, s', u, y); } else { assert b == a; }
    if b.use.Used? {
      assert b.use == a.use;
      if a.use.owner != u { assert s'.threads[a.use.owner] == s.threads[a.use.owner]; }
    }
  }

  lemma TxnStable(s: State, s': State, u: nat, x: nat, y: nat, t: nat, job: Job, pc: Pc, o: Obs)
    requires Step(s, s', u, x, y) && t < |s.threads| && t != u
    requires o.n < |s.nodes| && o.txn < s.nextTxn && TxnOK(s, job, pc, o) && NodeOK(s, o.n)
    requires u < |s.threads| ==> OwnOK(s, u) && CtlOK(s, u) && CtlOK(s', u) && OwnOK(s', u)
    requires NodeOK(s', o.n)
    ensures TxnOK(s', job, pc, o)
    ensures Open(s', o) ==> Open(s, o) && s'.nodes[o.n].offer == s.nodes[o.n].offer
  {
    var a, b := s.nodes[o.n], s'.nodes[o.n];
    if o.n == y { assert NodeFrame(s, s', u, y); } else { assert b == a; }
    if Open(s', o) {
      assert b.control == a.control;
      if a.use.owner != u { assert s'.threads[a.use.owner] == s.threads[a.use.owner]; }
    }
  }

  lemma ObsStable(s: State, s': State, u: nat, x: nat, y: nat, t: nat)
    requires Step(s, s', u, x, y) && t < |s.threads| && t != u && OwnOK(s, t) && OpOK(s, t) && ObsOK(s, t) && CtlOK(s, t)
    requires u < |s.threads| ==> OwnOK(s, u) && CtlOK(s, u) && CtlOK(s', u) && OwnOK(s', u)
    requires EnvelopesOK(s) && |s.env| == |s.nodes|
    requires forall n :: 0 <= n < |s.nodes| ==> NodeOK(s, n) && NodeOK(s', n)
    ensures ObsOK(s', t)
  {
    var th := s.threads[t];
    assert s'.threads[t] == th;
    if th.op.Sweeping? && HasObs(th.op.pc) {
      var job, pc := th.op.job, th.op.pc;
      var o := ObsOf(pc);
      assert Place(pc) == o.n;
      assert NodeOK(s, o.n) && NodeOK(s', o.n);
      assert InsideOf(th.op, th.node, o.n) && t in s.nodes[o.n].inside;
      GenStable(s, s', u, x, y, t, o);
      TxnStable(s, s', u, x, y, t, job, pc, o);
      EnvOKStable(s, s', u, x, y, t, pc, o);
      assert CellFrame(s, s', u, job.cell);
      if s.cells[job.cell].live { LiveStable(s, s', u, t, job.cell); }
      if HasReplacement(pc) { SeenStable(s, s', u, job.cell, o.since, pc.r); }
      AddrStable(s, s', u, x, y, t, job, o);
    }
  }

  lemma EnvOKStable(s: State, s': State, u: nat, x: nat, y: nat, t: nat, pc: Pc, o: Obs)
    requires Step(s, s', u, x, y) && t < |s.threads| && t != u && OwnOK(s, t) && CtlOK(s, t)
    requires u < |s.threads| ==> OwnOK(s, u)
    requires EnvelopesOK(s) && |s.env| == |s.nodes| && o.n < |s.nodes| && s.threads[t].op.Sweeping? && s.threads[t].op.pc == pc
    requires pc.HCas? ==> !s.threads[t].call.FEnv? && !s.threads[t].call.FOffer?
    requires HasObs(pc) && EnvOK(s, s.threads[t], pc, o)
    requires Open(s', o) ==> Open(s, o) && s'.nodes[o.n].offer == s.nodes[o.n].offer
    ensures EnvOK(s', s.threads[t], pc, o)
  {
    NodeStable(s, s', u, x, y, t);
    if pc.HCas? { EnvStable(s, s', u, t, pc.mine); }
  }

  /** Nobody publishes the address of a cell that was taken away. */
  lemma AddrStable(s: State, s': State, u: nat, x: nat, y: nat, t: nat, job: Job, o: Obs)
    requires Step(s, s', u, x, y) && t < |s.threads| && t != u
    requires o.n < |s.nodes| && job.cell < |s.cells|
    requires s.cells[job.cell].live || s.nodes[o.n].addr != job.cell
    requires Borrows(s.threads[t], job.cell)
    ensures s'.cells[job.cell].live || s'.nodes[o.n].addr != job.cell
  {
    assert CellFrame(s, s', u, job.cell);
    if s.cells[job.cell].live { LiveStable(s, s', u, t, job.cell); }
    if o.n == y { assert NodeFrame(s, s', u, y); } else { assert s'.nodes[o.n] == s.nodes[o.n]; }
  }

  lemma CandStable(s: State, s': State, u: nat, x: nat, y: nat, t: nat)
    requires Step(s, s', u, x, y) && t < |s.threads| && t != u && OwnOK(s, t) && CtlOK(s, t) && CallOK(s, t) && CandOK(s, t)
    ensures CandOK(s', t)
  {
    var th := s.threads[t];
    assert s'.threads[t] == th;
    if (th.call.FSlot? || th.call.FConf?) && 0 <= th.node && s'.nodes[th.node].control.Gen? {
      NodeStable(s, s', u, x, y, t);
      var c, p, n := th.call.ask.cell, th.call.p, th.node;
      assert CellFrame(s, s', u, c);
      if Holds(s, c, p) {
        if !Holds(s', c, p) { assert PreHelp(s'.threads[u].op, c, p, n); }
      } else {
        var w :| 0 <= w < |s.threads| && PreHelp(s.threads[w].op, c, p, n);
        assert HelpFrame(s, s', u, n);
        assert PreHelp(s'.threads[w].op, c, p, n);
      }
    }
  }

  lemma BarrierStable(s: State, s': State, u: nat, x: nat, y: nat, t: nat)
    requires Step(s, s', u, x, y) && t < |s.threads| && t != u && OpOK(s, t) && BarrierOK(s, t)
    ensures BarrierOK(s', t)
  {
    var th := s.threads[t];
    assert s'.threads[t] == th;
    if th.op.Sweeping? {
      forall n | 0 <= n < |s'.nodes| && !WillHelp(th.op.pc, n)
        ensures Passed(s', th.op.job, n)
      {
        if n < |s.nodes| {
          assert Passed(s, th.op.job, n);
          if n == y { assert NodeFrame(s, s', u, y); } else { assert s'.nodes[n] == s.nodes[n]; }
        }
      }
    }
  }

  lemma ThreadStable(s: State, s': State, u: nat, x: nat, y: nat, t: nat)
    requires Inv(s) && Step(s, s', u, x, y) && t < |s.threads| && t != u
    requires u < |s.threads| ==> ThreadOK(s', u)
    requires forall n :: 0 <= n < |s.nodes| ==> NodeOK(s', n)
    ensures ThreadOK(s', t)
  {
    assert ThreadOK(s, t);
    assert u < |s.threads| ==> ThreadOK(s, u);
    forall n | 0 <= n < |s.nodes| ensures NodeOK(s, n) && NodeOK(s', n) { assert NodeOK(s, n); }
    OwnStable(s, s', u, x, y, t);
    CtlStable(s, s', u, x, y, t);
    CallStable(s, s', u, x, y, t);
    OpStable(s, s', u, x, y, t);
    ObsStable(s, s', u, x, y, t);
    CandStable(s, s', u, x, y, t);
    BarrierStable(s, s', u, x, y, t);
  }

  /** A debt stays protected: its cell still holds the pointer, or a writer took it out and has not
      come to the slot yet. */
  lemma CoverStable(s: State, s': State, u: nat, x: nat, y: nat, c: nat, p: Ptr, n: nat, j: nat)
    requires Step(s, s', u, x, y) && n < |s.nodes| && j < |s'.nodes[n].slots|
    requires Holds(s, c, p) || Covered(s, c, p, n, j)
    requires Hits(s', n, j, p)
    ensures Holds(s', c, p) || Covered(s', c, p, n, j)
  {
    if Holds(s, c, p) {
      assert CellFrame(s, s', u, c);
      if !Holds(s', c, p) { assert Covers(s'.threads[u].op, c, p, n, j); }
    } else {
      var w :| 0 <= w < |s.threads| && Covers(s.threads[w].op, c, p, n, j);
      assert PassFrame(s, s', u, n, j);
      assert Covers(s'.threads[w].op, c, p, n, j);
    }
  }

  lemma GuardStable(s: State, s': State, u: nat, x: nat, y: nat, g: nat)
    requires Step(s, s', u, x, y) && g < |s.guards| && g != x && GuardOK(s, g)
    ensures GuardOK(s', g)
  {
    var gd, gd' := s.guards[g], s'.guards[g];
    assert Kept(s, s', g);
    if !gd.status.Gone? {
      if gd.status.Pending? || gd.status.Held? {
        if gd.status.t == u { assert StillMine(s, s', u, g); } else { assert s'.threads[gd.status.t] == s.threads[gd.status.t]; }
      }
      if gd.status.Held? || gd.status.Loose? {
        SeenStable(s, s', u, gd.src, 0, gd.ptr);
        if !gd'.paid && gd.debt.At? {
          CoverStable(s, s', u, x, y, gd.src, gd.ptr, gd.debt.node, gd.debt.slot);
        }
      }
    }
  }

  lemma NodeOKStable(s: State, s': State, u: nat, x: nat, y: nat, n: nat)
    requires Step(s, s', u, x, y) && n < |s.nodes| && n != y && NodeOK(s, n)
    ensures NodeOK(s', n)
  {
    var nd := s.nodes[n];
    assert s'.nodes[n] == nd;
    forall j | 0 <= j < SLOTS ensures SlotOK(s', n, j) {
      assert SlotOK(s, n, j);
      if nd.slots[j].Owes? && nd.slots[j].who != x { assert Kept(s, s', nd.slots[j].who); }
    }
    forall i | i in nd.inside ensures i < |s'.threads| && InsideOf(s'.threads[i].op, s'.threads[i].node, n) {
      if i == u { assert StillInside(s, s', u, n); } else { assert s'.threads[i] == s.threads[i]; }
    }
    if nd.use.Used? {
      if nd.use.owner == u { assert StillInside(s, s', u, n); } else { assert s'.threads[nd.use.owner] == s.threads[nd.use.owner]; }
    }
  }

  lemma FreshThreadOK(s: State, t: nat)
    requires t < |s.threads| && s.threads[t] == FreshThread
    ensures ThreadOK(s, t)
  {
  }

  /** A step that keeps to the rely, and leaves its own thread in order, preserves the invariant. */
  lemma Commit(s: State, s': State, u: nat, x: nat, y: nat)
    requires Inv(s) && Step(s, s', u, x, y)
    requires u < |s.threads| ==> ThreadOK(s', u)
    requires EnvelopesOK(s') && Balanced(s')
    ensures Inv(s')
  {
    forall n | 0 <= n < |s'.nodes| ensures NodeOK(s', n) {
      if n != y { assert NodeOK(s, n); NodeOKStable(s, s', u, x, y, n); }
    }
    forall g | 0 <= g < |s'.guards| ensures GuardOK(s', g) {
      if g != x { assert GuardOK(s, g); GuardStable(s, s', u, x, y, g); }
    }
    forall t | 0 <= t < |s'.threads| ensures ThreadOK(s', t) {
      if t >= |s.threads| {
        FreshThreadOK(s', t);
      } else if t != u {
        ThreadStable(s, s', u, x, y, t);
      }
    }
  }
}
