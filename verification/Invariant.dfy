/**
 The inductive invariant: one assertion per thread, node, guard and cell, plus the envelope
 permutation and the reference-count balance.
 */
module Invariant {
  import opened Protocol
  import opened Steps

  // ---------------------------------------------------------------------------------------------
  // Histories

  /** Cell `c` has held `p` at version `since` or later. */
  ghost predicate Seen(s: State, c: nat, since: nat, p: Ptr) {
    c < |s.cells| && exists k :: since <= k < |s.cells[c].hist| && s.cells[c].hist[k] == p
  }

  /** Cell `c` holds `p` now. */
  predicate Holds(s: State, c: nat, p: Ptr) {
    c < |s.cells| && s.cells[c].live && s.cells[c].val == p
  }

  // ---------------------------------------------------------------------------------------------
  // How far a writer has come

  /** The operation took `p` out of cell `c` and will still try to pay slot `j` of node `n`. */
  predicate Covers(op: Op, c: nat, p: Ptr, n: nat, j: nat) {
    op.Sweeping? && op.job.cell == c && op.job.out == p && WillPay(op.pc, n, j)
  }

  predicate WillPay(pc: Pc, n: nat, j: nat) {
    match pc
    case Prepay => true
    case Head => true
    case Pay(m, i) => n < m || (n == m && i <= j)
    case PayInc(m, i) => n < m || (n == m && i < j)
    case Release(m) => n < m
    case Finish => false
    case Swept => false
    case _ => n <= Place(pc)
  }

  /** The operation took `p` out of cell `c` and has not finished `help` on node `n`. */
  predicate PreHelp(op: Op, c: nat, p: Ptr, n: nat) {
    op.Sweeping? && op.job.cell == c && op.job.out == p && WillHelp(op.pc, n)
  }

  predicate WillHelp(pc: Pc, n: nat) {
    match pc
    case Prepay => true
    case Head => true
    case HStore(m, _) => n < m
    case HDrop(m, _, look) => n < m || (n == m && look.Busy?)
    case Pay(m, _) => n < m
    case PayInc(m, _) => n < m
    case Release(m) => n < m
    case Finish => false
    case Swept => false
    case _ => n <= Place(pc)
  }

  ghost predicate Covered(s: State, c: nat, p: Ptr, n: nat, j: nat) {
    exists w :: 0 <= w < |s.threads| && Covers(s.threads[w].op, c, p, n, j)
  }

  ghost predicate Helping(s: State, c: nat, p: Ptr, n: nat) {
    exists w :: 0 <= w < |s.threads| && PreHelp(s.threads[w].op, c, p, n)
  }

  // ---------------------------------------------------------------------------------------------
  // Threads

  /** The generation of these calls is published. */
  predicate Published(c: Call) {
    c.FRead? || c.FSlot? || c.FConf?
  }

  /** Operations that run a nested call. */
  predicate CallFits(op: Op, c: Call) {
    match op
    case Loading => Reading(c) || c.InInc? || c.InPay? || c.InDec? || c.Done?
    case Dropping => c.DrPay? || c.DrDec? || c.Dropped?
    case CLoad(d, _, _) => (Reading(c) || c.InInc? || c.InPay? || c.InDec? || c.Done?) && c.ask.cell == d && !c.ask.full
    case CRetry(_, _, _) => c.DrPay? || c.DrDec? || c.Dropped?
    case Sweeping(job, pc) =>
      if pc.HLoad? then
        && (Reading(c) || c.InInc? || c.InPay? || c.InDec? || c.Done?)
        && c.ask.cell == job.cell && c.ask.full && pc.o.since <= c.ask.since
      else c.NoCall?
    case _ => c.NoCall?
  }

  predicate NeedsNode(op: Op) {
    op.XReserve? || op.XSwap? || op.Swapping? || op.Sweeping? || op.CLoad? || op.CTry? || op.CRetry?
  }

  predicate NoNode(op: Op) {
    op.Exited? || op.GHead? || op.GCheck? || op.GClaim? || op.GTop? || op.GPush? || op.XRelease?
  }

  /** The node of `t` is `t`'s, and `t` has one when it needs it. */
  predicate OwnOK(s: State, t: nat)
    requires t < |s.threads|
  {
    var th := s.threads[t];
    && -1 <= th.node < |s.nodes|
    && (0 <= th.node ==> s.nodes[th.node].use == Used(t))
    && (NeedsNode(th.op) || Reading(th.call) ==> 0 <= th.node)
    && (NoNode(th.op) ==> th.node == -1)
    && CallFits(th.op, th.call)
    && (HasGuard(th.call) ==> !OpHolds(th.op, th.call.g))
  }

  /** The control word of the own node. */
  ghost predicate CtlOK(s: State, t: nat)
    requires t < |s.threads|
  {
    var th := s.threads[t];
    0 <= th.node < |s.nodes| ==>
      var nd := s.nodes[th.node];
      if Published(th.call) then
        && nd.addr == th.call.ask.cell
        && th.call.x < s.nextTxn
        && (nd.control == Gen(th.gen, th.call.x) ||
            (nd.control.Repl? && nd.control.env < |s.env| && s.env[nd.control.env] == nd.control.val &&
             Seen(s, th.call.ask.cell, th.call.ask.since, nd.control.val)))
      else
        nd.control == Control.Idle && (th.call.FCtrl? ==> nd.addr == th.call.ask.cell)
  }

  /** `g` is a debt of `t` that is not confirmed yet. */
  predicate PendingAt(s: State, t: nat, g: nat, p: Ptr, src: nat, helping: bool)
    requires t < |s.threads|
  {
    && g < |s.guards|
    && s.guards[g].ptr == p && s.guards[g].src == src && s.guards[g].status == Pending(t)
    && s.guards[g].debt.At? && s.guards[g].debt.node == s.threads[t].node
    && (if helping then s.guards[g].debt.slot == HELPING else s.guards[g].debt.slot < FAST_SLOTS)
  }

  predicate HeldGuard(s: State, t: nat, g: nat) {
    g < |s.guards| && s.guards[g].status == Held(t)
  }

  /** The nested call. */
  ghost predicate CallOK(s: State, t: nat)
    requires t < |s.threads|
  {
    var th := s.threads[t];
    var c := th.call;
    && (UsesCell(c) ==> IsLive(s, c.ask.cell) && c.ask.since < |s.cells[c.ask.cell].hist|)
    && (Reading(c) ==> c.ask.cell < |s.cells|)
    && match c
       case LScan(ask, p, i) => i < FAST_SLOTS && Seen(s, ask.cell, ask.since, p)
       case LPut(ask, p, j) =>
         && j < FAST_SLOTS && Seen(s, ask.cell, ask.since, p)
         && 0 <= th.node < |s.nodes| && |s.nodes[th.node].slots| == SLOTS && s.nodes[th.node].slots[j].Free?
       case LConfirm(ask, p, g) => PendingAt(s, t, g, p, ask.cell, false) && Seen(s, ask.cell, ask.since, p)
       case LPay(ask, p, g) =>
         PendingAt(s, t, g, p, ask.cell, false) && Seen(s, ask.cell, ask.since, p) && ask.since < Now(s, ask.cell)
       case FSlot(ask, x, p) => Seen(s, ask.cell, ask.since, p)
       case FConf(ask, x, p, g) => PendingAt(s, t, g, p, ask.cell, true) && Seen(s, ask.cell, ask.since, p)
       case FEnv(ask, p, g, e, r) =>
         PendingAt(s, t, g, p, ask.cell, true) && e < |s.env| && s.env[e] == r && Seen(s, ask.cell, ask.since, r)
       case FOffer(ask, p, g, e, r) =>
         PendingAt(s, t, g, p, ask.cell, true) && e < |s.env| && Seen(s, ask.cell, ask.since, r)
       case FPay(ask, p, g, r) => PendingAt(s, t, g, p, ask.cell, true) && Seen(s, ask.cell, ask.since, r)
       case FDec(ask, p, g, r) =>
         && g < |s.guards| && s.guards[g].status == Pending(t) && s.guards[g].ptr == p && s.guards[g].debt.NoDebt?
         && Seen(s, ask.cell, ask.since, r)
       case InInc(ask, p, g) =>
         HeldGuard(s, t, g) && s.guards[g].ptr == p && s.guards[g].debt.At? && Seen(s, ask.cell, ask.since, p)
       case InPay(ask, p, g) =>
         HeldGuard(s, t, g) && s.guards[g].ptr == p && s.guards[g].debt.At? && Seen(s, ask.cell, ask.since, p)
       case InDec(ask, p, g) =>
         HeldGuard(s, t, g) && s.guards[g].ptr == p && s.guards[g].debt.NoDebt? && Seen(s, ask.cell, ask.since, p)
       case Done(ask, g) =>
         && HeldGuard(s, t, g) && Seen(s, ask.cell, ask.since, s.guards[g].ptr)
         && (ask.full ==> s.guards[g].debt.NoDebt?)
       case DrPay(g) => HeldGuard(s, t, g) && s.guards[g].debt.At?
       case DrDec(g) => HeldGuard(s, t, g) && s.guards[g].debt.NoDebt?
       case _ => true
  }

  /** The sweep is counted among the writers of its node. */
  predicate Counted(pc: Pc) {
    AtNode(pc) && !pc.Reserve?
  }

  /** The node in whose `inside` the thread is. */
  predicate InsideOf(op: Op, node: int, n: nat) {
    || (op.Sweeping? && Counted(op.pc) && Place(op.pc) == n)
    || (op.XSwap? && node == n)
    || (op.XRelease? && op.n == n)
  }

  /** The operation. */
  ghost predicate OpOK(s: State, t: nat)
    requires t < |s.threads|
  {
    var th := s.threads[t];
    && (forall n {:trigger s.nodes[n]} :: 0 <= n < |s.nodes| && InsideOf(th.op, th.node, n) ==> t in s.nodes[n].inside)
    && match th.op
       case GCheck(n) => n < |s.nodes|
       case GClaim(n) => n < |s.nodes|
       case GPush(h) => h < |s.nodes|
       case XRelease(n) => n < |s.nodes|
       case Swapping(c, _) => IsLive(s, c)
       case CLoad(c, _, _) => IsLive(s, c)
       case CTry(c, cur, _, g) => IsLive(s, c) && HeldGuard(s, t, g) && s.guards[g].ptr == cur
       case CRetry(c, _, _) => IsLive(s, c)
       case CKeep(cur, _, g) => HeldGuard(s, t, g) && s.guards[g].ptr != cur
       case Sweeping(job, pc) =>
         && job.cell < |s.cells|
         && job.tick <= s.nextTxn
         && (s.cells[job.cell].live <==> job.kind.KSwap? || job.kind.KCas?)
         && (job.kind.KCas? ==> HeldGuard(s, t, job.kind.g) && s.guards[job.kind.g].ptr == job.out)
         && (AtNode(pc) ==> Place(pc) < |s.nodes|)
         && (pc.Pay? ==> pc.i < SLOTS)
         && (pc.PayInc? ==> pc.i < SLOTS)
         && (pc.HDrop? && pc.look.Busy? ==> pc.look.o.n == pc.n)
       case _ => true
  }

  /** The pointer a helper is about to pass on. */
  predicate HasReplacement(pc: Pc) {
    pc.HTheir? || pc.HMine? || pc.HWrite? || pc.HCas?
  }

  /** Helping: what the writer has seen is still what it seems to be. */
  ghost predicate ObsOK(s: State, t: nat)
    requires t < |s.threads|
  {
    var th := s.threads[t];
    && (th.op.Sweeping? && th.op.pc.HStore? ==> th.op.pc.their < |s.env|)
    && (th.op.Sweeping? && HasObs(th.op.pc) ==>
          var job := th.op.job;
          var pc := th.op.pc;
          var o := ObsOf(pc);
          && o.n < |s.nodes| && o.n != th.node
          && o.txn < s.nextTxn
          && job.cell < |s.cells| && o.since < |s.cells[job.cell].hist|
          && GenOK(s, o)
          && TxnOK(s, job, pc, o)
          && (pc.HAddr? || pc.HRecheck? || (job.cell < |s.cells| && s.cells[job.cell].live))
          && (s.cells[job.cell].live || s.nodes[o.n].addr != job.cell)
          && (HasReplacement(pc) ==> Seen(s, job.cell, o.since, pc.r))
          && EnvOK(s, th, pc, o))
  }

  /** ABA: the generation that was seen stands for the transaction that was seen. */
  predicate GenOK(s: State, o: Obs)
    requires o.n < |s.nodes|
  {
    var nd := s.nodes[o.n];
    && !nd.use.Unused?
    && (nd.use.Used? ==>
          && nd.use.owner < |s.threads|
          && o.gen <= s.threads[nd.use.owner].gen
          && (s.threads[nd.use.owner].call.FCtrl? ==> o.gen < s.threads[nd.use.owner].gen))
    && (SameGen(nd.control, o.gen) ==> nd.control.txn == o.txn)
  }

  /** The transaction that was seen is still open. */
  predicate Open(s: State, o: Obs)
    requires o.n < |s.nodes|
  {
    s.nodes[o.n].control.Gen? && s.nodes[o.n].control.txn == o.txn
  }

  /** While the transaction is open: it reads the writer's cell, and began before the writer's look. */
  predicate TxnOK(s: State, job: Job, pc: Pc, o: Obs)
    requires o.n < |s.nodes|
  {
    Open(s, o) ==>
      var nd := s.nodes[o.n];
      && nd.use.Used? && nd.use.owner < |s.threads|
      && Published(s.threads[nd.use.owner].call)
      && var ask := s.threads[nd.use.owner].call.ask;
      && (ask.cell == job.cell ==> ask.since <= o.since)
      && (pc.HRecheck? ==> ask.cell != job.cell)
      && (pc.HLoad? || HasReplacement(pc) ==> ask.cell == job.cell)
  }

  predicate EnvOK(s: State, th: Thread, pc: Pc, o: Obs)
    requires o.n < |s.nodes|
  {
    && ((pc.HMine? || pc.HWrite? || pc.HCas?) ==> pc.their < |s.env| && (Open(s, o) ==> pc.their == s.nodes[o.n].offer))
    && ((pc.HWrite? || pc.HCas?) ==>
          0 <= th.node < |s.nodes| && pc.mine == s.nodes[th.node].offer && pc.mine < |s.env|)
    && (pc.HCas? ==> pc.mine < |s.env| && s.env[pc.mine] == pc.r)
  }

  /** A candidate under an open generation is protected by its cell, or by a writer that will still
      come to help. */
  ghost predicate CandOK(s: State, t: nat)
    requires t < |s.threads|
  {
    var th := s.threads[t];
    (th.call.FSlot? || th.call.FConf?) && 0 <= th.node < |s.nodes| && s.nodes[th.node].control.Gen? ==>
      Holds(s, th.call.ask.cell, th.call.p) || Helping(s, th.call.ask.cell, th.call.p, th.node)
  }

  /** When `help` is over for a node, no transaction on the writer's cell that began before the swap
      is still open there. */
  ghost predicate BarrierOK(s: State, t: nat)
    requires t < |s.threads|
  {
    var th := s.threads[t];
    th.op.Sweeping? ==>
      forall n :: 0 <= n < |s.nodes| && !WillHelp(th.op.pc, n) ==> Passed(s, th.op.job, n)
  }

  predicate Passed(s: State, job: Job, n: nat)
    requires n < |s.nodes|
  {
    s.nodes[n].control.Gen? && s.nodes[n].addr == job.cell ==> job.tick <= s.nodes[n].control.txn
  }

  ghost predicate ThreadOK(s: State, t: nat) {
    && t < |s.threads|
    && OwnOK(s, t)
    && CtlOK(s, t)
    && CallOK(s, t)
    && OpOK(s, t)
    && ObsOK(s, t)
    && CandOK(s, t)
    && BarrierOK(s, t)
  }

  // ---------------------------------------------------------------------------------------------
  // Nodes, guards, cells

  predicate SlotOK(s: State, n: nat, j: nat)
    requires n < |s.nodes| && j < |s.nodes[n].slots|
  {
    var sl := s.nodes[n].slots[j];
    sl.Owes? ==>
      && sl.who < |s.guards|
      && s.guards[sl.who].ptr == sl.ptr && s.guards[sl.who].debt == At(n, j)
      && !s.guards[sl.who].paid && !s.guards[sl.who].status.Gone?
  }

  ghost predicate NodeOK(s: State, n: nat) {
    && n < |s.nodes|
    && var nd := s.nodes[n];
    && |nd.slots| == SLOTS
    && (forall j :: 0 <= j < SLOTS ==> SlotOK(s, n, j))
    && nd.next == n - 1
    && nd.offer < |s.env|
    && nd.writers == |nd.inside|
    && (forall i :: i in nd.inside ==> i < |s.threads| && InsideOf(s.threads[i].op, s.threads[i].node, n))
    && (nd.use.Used? ==> nd.use.owner < |s.threads| && s.threads[nd.use.owner].node == n)
    && (!nd.use.Used? ==> nd.control == Control.Idle)
  }

  /** The call refers to `g` before it is confirmed. */
  predicate CallPends(c: Call, g: nat) {
    (c.LConfirm? || c.LPay? || c.FConf? || c.FEnv? || c.FOffer? || c.FPay? || c.FDec?) && c.g == g
  }

  predicate CallHolds(c: Call, g: nat) {
    (c.InInc? || c.InPay? || c.InDec? || c.Done? || c.DrPay? || c.DrDec?) && c.g == g
  }

  predicate OpHolds(op: Op, g: nat) {
    match op
    case CTry(_, _, _, h) => h == g
    case CKeep(_, _, h) => h == g
    case Sweeping(job, _) => job.kind == KCas(g)
    case _ => false
  }

  /** The helping slot is occupied only inside a call of the owner. */
  predicate OnHelping(c: Call, g: nat) {
    (c.FConf? || c.FEnv? || c.FOffer? || c.FPay? || c.InInc? || c.InPay?) && c.g == g
  }

  ghost predicate GuardOK(s: State, g: nat) {
    && g < |s.guards|
    && var gd := s.guards[g];
    !gd.status.Gone? ==>
      && (gd.debt.NoDebt? ==> gd.paid)
      && (gd.debt.At? ==>
            && gd.debt.node < |s.nodes| && gd.debt.slot < |s.nodes[gd.debt.node].slots|
            && gd.debt.slot < SLOTS
            && (gd.paid <==> s.nodes[gd.debt.node].slots[gd.debt.slot] != Owes(gd.ptr, g))
            && (gd.debt.slot == HELPING ==>
                  && (gd.status.Pending? || gd.status.Held?) && gd.status.t < |s.threads|
                  && s.threads[gd.status.t].node == gd.debt.node && OnHelping(s.threads[gd.status.t].call, g)))
      && (gd.status.Pending? ==> gd.status.t < |s.threads| && CallPends(s.threads[gd.status.t].call, g))
      && (gd.status.Held? ==>
            gd.status.t < |s.threads| &&
            (CallHolds(s.threads[gd.status.t].call, g) || OpHolds(s.threads[gd.status.t].op, g)))
      && (gd.status.Held? || gd.status.Loose? ==>
            && Seen(s, gd.src, 0, gd.ptr)
            && (!gd.paid && gd.debt.At? ==>
                  Holds(s, gd.src, gd.ptr) || Covered(s, gd.src, gd.ptr, gd.debt.node, gd.debt.slot)))
  }

  ghost predicate CellOK(s: State, c: nat) {
    && c < |s.cells|
    && |s.cells[c].hist| > 0
    && s.cells[c].hist[|s.cells[c].hist| - 1] == s.cells[c].val
  }

  // ---------------------------------------------------------------------------------------------
  // Envelopes

  /** The envelope that belongs to node `n`: usually its space offer, but one that was just handed
      over is not stored there yet. */
  function Envelope(s: State, n: nat): nat
    requires n < |s.nodes|
  {
    var nd := s.nodes[n];
    if nd.use.Used? && nd.use.owner < |s.threads| then
      var th := s.threads[nd.use.owner];
      if th.op.Sweeping? && th.op.pc.HStore? then th.op.pc.their
      else if nd.control.Repl? then nd.control.env
      else if th.call.FEnv? || th.call.FOffer? then th.call.e
      else nd.offer
    else nd.offer
  }

  /** Envelopes are a permutation of the nodes. */
  ghost predicate EnvelopesOK(s: State) {
    && (forall n :: 0 <= n < |s.nodes| ==> Envelope(s, n) < |s.nodes|)
    && (forall m, n :: 0 <= m < n < |s.nodes| ==> Envelope(s, m) != Envelope(s, n))
  }

  // ---------------------------------------------------------------------------------------------
  // Reference counts

  function Eq(p: Ptr, q: Ptr): nat { if p == q then 1 else 0 }

  function CellHolds(c: Cell, p: Ptr): nat { if c.live then Eq(c.val, p) else 0 }

  /** A guard owns a reference when its debt was paid. */
  function GuardHolds(g: Guard, p: Ptr): nat { if !g.status.Gone? && g.paid then Eq(g.ptr, p) else 0 }

  /** A replacement on its way to the reader. */
  function NodeHolds(nd: Node, p: Ptr): nat { if nd.control.Repl? then Eq(nd.control.val, p) else 0 }

  function CallOwns(c: Call, p: Ptr): nat {
    match c
    case FEnv(_, _, _, _, r) => Eq(r, p)
    case FOffer(_, _, _, _, r) => Eq(r, p)
    case FPay(_, _, _, r) => Eq(r, p)
    case FDec(_, _, _, r) => Eq(r, p)
    case InPay(_, q, _) => Eq(q, p)
    case InDec(_, q, _) => Eq(q, p)
    case _ => 0
  }

  /** The reference taken out of the cell, the pre-paid one and the replacement. */
  function PcOwns(pc: Pc, q: Ptr, p: Ptr): nat {
    match pc
    case Prepay => Eq(q, p)
    case PayInc(_, _) => Eq(q, p)
    case Swept => Eq(q, p)
    case HTheir(_, r) => 2 * Eq(q, p) + Eq(r, p)
    case HMine(_, r, _) => 2 * Eq(q, p) + Eq(r, p)
    case HWrite(_, r, _, _) => 2 * Eq(q, p) + Eq(r, p)
    case HCas(_, r, _, _) => 2 * Eq(q, p) + Eq(r, p)
    case HDrop(_, r, _) => 2 * Eq(q, p) + Eq(r, p)
    case _ => 2 * Eq(q, p)
  }

  function OpOwns(op: Op, p: Ptr): nat {
    match op
    case Swapping(_, nv) => Eq(nv, p)
    case CLoad(_, _, nv) => Eq(nv, p)
    case CTry(_, _, nv, _) => Eq(nv, p)
    case CRetry(_, _, nv) => Eq(nv, p)
    case CKeep(_, nv, _) => Eq(nv, p)
    case Sweeping(job, pc) => PcOwns(pc, job.out, p)
    case _ => 0
  }

  function ThreadOwns(th: Thread, p: Ptr): nat { OpOwns(th.op, p) + CallOwns(th.call, p) }

  function SumCells(xs: seq<Cell>, p: Ptr): nat {
    if |xs| == 0 then 0 else SumCells(xs[..|xs| - 1], p) + CellHolds(xs[|xs| - 1], p)
  }

  function SumGuards(xs: seq<Guard>, p: Ptr): nat {
    if |xs| == 0 then 0 else SumGuards(xs[..|xs| - 1], p) + GuardHolds(xs[|xs| - 1], p)
  }

  function SumNodes(xs: seq<Node>, p: Ptr): nat {
    if |xs| == 0 then 0 else SumNodes(xs[..|xs| - 1], p) + NodeHolds(xs[|xs| - 1], p)
  }

  function SumThreads(xs: seq<Thread>, p: Ptr): nat {
    if |xs| == 0 then 0 else SumThreads(xs[..|xs| - 1], p) + ThreadOwns(xs[|xs| - 1], p)
  }

  /** All references to `p` that something in the system owns. */
  function Owned(s: State, p: Ptr): nat {
    s.handles[p] + SumCells(s.cells, p) + SumGuards(s.guards, p) + SumNodes(s.nodes, p) + SumThreads(s.threads, p)
  }

  ghost predicate Balanced(s: State) {
    forall p {:trigger Owned(s, p)} :: s.refs[p] == Owned(s, p)
  }

  // ---------------------------------------------------------------------------------------------

  ghost predicate Frame(s: State) {
    && |s.env| == |s.nodes|
    && s.head == |s.nodes| - 1
  }

  ghost predicate Inv(s: State) {
    && Frame(s)
    && (forall t :: 0 <= t < |s.threads| ==> ThreadOK(s, t))
    && (forall n :: 0 <= n < |s.nodes| ==> NodeOK(s, n))
    && (forall g :: 0 <= g < |s.guards| ==> GuardOK(s, g))
    && (forall c :: 0 <= c < |s.cells| ==> CellOK(s, c))
    && EnvelopesOK(s)
    && Balanced(s)
  }
}
