/**
 One function per atomic access of the source: what thread `t` does next, by its program counter.
 The accesses are interleaved arbitrarily (sequential consistency).
 */
module Steps {
  import opened Protocol

  predicate Ready(s: State, t: nat) {
    && t < |s.threads|
    && Shape(s)
    && ThreadShape(s, t)
    && (0 <= s.threads[t].node ==> NodeShape(s, s.threads[t].node))
    && (HasGuard(s.threads[t].call) ==> GuardShape(s, s.threads[t].call.g))
  }

  // ---------------------------------------------------------------------------------------------
  // HybridProtection::attempt

  function DoLStart(s: State, t: nat): State
    requires Ready(s, t) && s.threads[t].call.LStart?
  {
    var ask := s.threads[t].call.ask;
    SetCall(s, t, if s.useFast then LScan(ask, s.cells[ask.cell].val, 0) else FAddr(ask))
  }

  /** fast::Slots::get_debt inspects one slot. */
  function DoLScan(s: State, t: nat): State
    requires Ready(s, t) && s.threads[t].call.LScan?
  {
    var th := s.threads[t];
    var LScan(ask, p, i) := th.call;
    var j := (i + th.offset) % FAST_SLOTS;
    SetCall(s, t,
      if s.nodes[th.node].slots[j].Free? then LPut(ask, p, j)
      else if i + 1 < FAST_SLOTS then LScan(ask, p, i + 1)
      else FAddr(ask))
  }

  /** Publish a debt on `p` in slot `j` of the own node, for a new pending guard. */
  function Borrow(s: State, t: nat, j: nat, p: Ptr, src: nat): State
    requires Ready(s, t) && 0 <= s.threads[t].node && j < SLOTS
  {
    var n := s.threads[t].node;
    var nd := s.nodes[n];
    s.(nodes := s.nodes[n := nd.(slots := nd.slots[j := Owes(p, |s.guards|)])],
       guards := s.guards + [Guard(p, At(n, j), false, src, Pending(t))])
  }

  function DoLPut(s: State, t: nat): State
    requires Ready(s, t) && s.threads[t].call.LPut?
  {
    var th := s.threads[t];
    var LPut(ask, p, j) := th.call;
    var g := |s.guards|;
    Borrow(s, t, j, p, ask.cell)
      .(threads := s.threads[t := th.(offset := j + 1, call := LConfirm(ask, p, g))])
  }

  function DoLConfirm(s: State, t: nat): State
    requires Ready(s, t) && s.threads[t].call.LConfirm?
  {
    var LConfirm(ask, p, g) := s.threads[t].call;
    if s.cells[ask.cell].val == p then
      SetCall(SetGuard(s, g, s.guards[g].(status := Held(t))), t,
              if ask.full then InInc(ask, p, g) else Done(ask, g))
    else
      SetCall(s, t, LPay(ask, p, g))
  }

  /** Settle the slot in `g`'s debt and then replace `g` itself. */
  function PayBack(s: State, g: nat, gd: Guard): State
    requires Shape(s) && g < |s.guards| && GuardShape(s, g) && !s.guards[g].status.Gone? && s.guards[g].debt.At?
    requires NodeShape(s, s.guards[g].debt.node)
    requires Hits(s, s.guards[g].debt.node, s.guards[g].debt.slot, s.guards[g].ptr)
  {
    SetGuard(Settle(s, s.guards[g].debt.node, s.guards[g].debt.slot), g, gd)
  }

  /** `Debt::pay` on the debt of guard `g` would succeed. */
  predicate Owing(s: State, g: nat)
    requires Shape(s) && g < |s.guards| && GuardShape(s, g) && !s.guards[g].status.Gone? && s.guards[g].debt.At?
  {
    assert NodeShape(s, s.guards[g].debt.node);
    Hits(s, s.guards[g].debt.node, s.guards[g].debt.slot, s.guards[g].ptr)
  }

  function DoLPay(s: State, t: nat): State
    requires Ready(s, t) && s.threads[t].call.LPay?
  {
    var LPay(ask, p, g) := s.threads[t].call;
    if Owing(s, g) then
      assert NodeShape(s, s.guards[g].debt.node);
      SetCall(PayBack(s, g, s.guards[g].(status := Gone)), t, FAddr(ask))
    else
      SetCall(SetGuard(s, g, s.guards[g].(debt := NoDebt, status := Held(t))), t, Done(ask, g))
  }

  // ---------------------------------------------------------------------------------------------
  // HybridProtection::fallback

  /** helping::Slots::get_debt: count the generation, publish the address. */
  function DoFAddr(s: State, t: nat): State
    requires Ready(s, t) && s.threads[t].call.FAddr?
  {
    var th := s.threads[t];
    var ask := th.call.ask;
    SetNode(s, th.node, s.nodes[th.node].(addr := ask.cell))
      .(threads := s.threads[t := th.(gen := th.gen + 1, call := FCtrl(ask))])
  }

  /** ... and publish the generation. */
  function DoFCtrl(s: State, t: nat): State
    requires Ready(s, t) && s.threads[t].call.FCtrl?
  {
    var th := s.threads[t];
    SetCall(SetNode(s, th.node, s.nodes[th.node].(control := Gen(th.gen, s.nextTxn))), t,
            FRead(th.call.ask, s.nextTxn))
      .(nextTxn := s.nextTxn + 1)
  }

  function DoFRead(s: State, t: nat): State
    requires Ready(s, t) && s.threads[t].call.FRead?
  {
    var FRead(ask, x) := s.threads[t].call;
    SetCall(s, t, FSlot(ask, x, s.cells[ask.cell].val))
  }

  /** helping::Slots::confirm: the debt goes into the slot. */
  function DoFSlot(s: State, t: nat): State
    requires Ready(s, t) && s.threads[t].call.FSlot?
  {
    var FSlot(ask, x, p) := s.threads[t].call;
    SetCall(Borrow(s, t, HELPING, p, ask.cell), t, FConf(ask, x, p, |s.guards|))
  }

  /** ... and the control goes back to idle.  The last branch is the one the source excludes with
      an assertion. */
  function DoFConf(s: State, t: nat): State
    requires Ready(s, t) && s.threads[t].call.FConf?
  {
    var th := s.threads[t];
    var FConf(ask, x, p, g) := th.call;
    var nd := s.nodes[th.node];
    var idle := SetNode(s, th.node, nd.(control := Control.Idle));
    if nd.control.Gen? && nd.control.gen == th.gen then
      SetCall(SetGuard(idle, g, s.guards[g].(status := Held(t))), t, InInc(ask, p, g))
    else if nd.control.Repl? then
      SetCall(idle, t, FEnv(ask, p, g, nd.control.env, nd.control.val))
    else
      s
  }

  function DoFEnv(s: State, t: nat): State
    requires Ready(s, t) && s.threads[t].call.FEnv?
  {
    var FEnv(ask, p, g, e, _) := s.threads[t].call;
    SetCall(s, t, FOffer(ask, p, g, e, s.env[e]))
  }

  function DoFOffer(s: State, t: nat): State
    requires Ready(s, t) && s.threads[t].call.FOffer?
  {
    var th := s.threads[t];
    var FOffer(ask, p, g, e, r) := th.call;
    SetCall(SetNode(s, th.node, s.nodes[th.node].(offer := e)), t, FPay(ask, p, g, r))
  }

  function DoFPay(s: State, t: nat): State
    requires Ready(s, t) && s.threads[t].call.FPay?
  {
    var FPay(ask, p, g, r) := s.threads[t].call;
    if Owing(s, g) then
      assert NodeShape(s, s.guards[g].debt.node);
      SetCall(PayBack(s, g, Guard(r, NoDebt, true, ask.cell, Held(t))), t, Done(ask, g))
    else
      SetCall(SetGuard(s, g, s.guards[g].(debt := NoDebt)), t, FDec(ask, p, g, r))
  }

  function DoFDec(s: State, t: nat): State
    requires Ready(s, t) && s.threads[t].call.FDec?
  {
    var FDec(ask, p, g, r) := s.threads[t].call;
    SetCall(SetGuard(s, g, Guard(r, NoDebt, true, ask.cell, Held(t))), t, Done(ask, g))
      .(refs := Dec(s.refs, p))
  }

  // ---------------------------------------------------------------------------------------------
  // HybridProtection::into_inner and drop

  function DoInInc(s: State, t: nat): State
    requires Ready(s, t) && s.threads[t].call.InInc?
  {
    var InInc(ask, p, g) := s.threads[t].call;
    SetCall(s, t, InPay(ask, p, g)).(refs := Inc(s.refs, p))
  }

  function DoInPay(s: State, t: nat): State
    requires Ready(s, t) && s.threads[t].call.InPay?
  {
    var InPay(ask, p, g) := s.threads[t].call;
    if Owing(s, g) then
      assert NodeShape(s, s.guards[g].debt.node);
      SetCall(PayBack(s, g, s.guards[g].(debt := NoDebt, paid := true)), t, Done(ask, g))
    else
      SetCall(SetGuard(s, g, s.guards[g].(debt := NoDebt)), t, InDec(ask, p, g))
  }

  function DoInDec(s: State, t: nat): State
    requires Ready(s, t) && s.threads[t].call.InDec?
  {
    var InDec(ask, p, g) := s.threads[t].call;
    SetCall(s, t, Done(ask, g)).(refs := Dec(s.refs, p))
  }

  function DoDrPay(s: State, t: nat): State
    requires Ready(s, t) && s.threads[t].call.DrPay?
  {
    var g := s.threads[t].call.g;
    if Owing(s, g) then
      assert NodeShape(s, s.guards[g].debt.node);
      SetCall(PayBack(s, g, s.guards[g].(status := Gone)), t, Dropped)
    else
      SetCall(SetGuard(s, g, s.guards[g].(debt := NoDebt)), t, DrDec(g))
  }

  function DoDrDec(s: State, t: nat): State
    requires Ready(s, t) && s.threads[t].call.DrDec?
  {
    var g := s.threads[t].call.g;
    SetCall(SetGuard(s, g, s.guards[g].(status := Gone)), t, Dropped)
      .(refs := Dec(s.refs, s.guards[g].ptr))
  }

  /** The call has not returned yet. */
  predicate InCall(c: Call) {
    !c.NoCall? && !c.Done? && !c.Dropped?
  }

  function CallStep(s: State, t: nat): State
    requires Ready(s, t) && InCall(s.threads[t].call)
  {
    match s.threads[t].call
    case LStart(_) => DoLStart(s, t)
    case LScan(_, _, _) => DoLScan(s, t)
    case LPut(_, _, _) => DoLPut(s, t)
    case LConfirm(_, _, _) => DoLConfirm(s, t)
    case LPay(_, _, _) => DoLPay(s, t)
    case FAddr(_) => DoFAddr(s, t)
    case FCtrl(_) => DoFCtrl(s, t)
    case FRead(_, _) => DoFRead(s, t)
    case FSlot(_, _, _) => DoFSlot(s, t)
    case FConf(_, _, _, _) => DoFConf(s, t)
    case FEnv(_, _, _, _, _) => DoFEnv(s, t)
    case FOffer(_, _, _, _, _) => DoFOffer(s, t)
    case FPay(_, _, _, _) => DoFPay(s, t)
    case FDec(_, _, _, _) => DoFDec(s, t)
    case InInc(_, _, _) => DoInInc(s, t)
    case InPay(_, _, _) => DoInPay(s, t)
    case InDec(_, _, _) => DoInDec(s, t)
    case DrPay(_) => DoDrPay(s, t)
    case DrDec(_) => DoDrDec(s, t)
  }

  // ---------------------------------------------------------------------------------------------
  // Debt::pay_all, with helping::Slots::help

  function SetPc(s: State, t: nat, pc: Pc): State
    requires t < |s.threads| && s.threads[t].op.Sweeping?
  {
    SetOp(s, t, Sweeping(s.threads[t].op.job, pc))
  }

  /** Load the control of node `n`: is there a read transaction to look at? */
  function LookAt(s: State, c: nat, n: nat): Look
    requires n < |s.nodes| && c < |s.cells|
  {
    var k := s.nodes[n].control;
    if k.Gen? then Busy(Obs(n, k.gen, k.txn, Now(s, c))) else Quiet
  }

  function AfterLook(n: nat, look: Look): Pc {
    if look.Busy? then HAddr(look.o) else Pay(n, 0)
  }

  predicate SameGen(k: Control, gen: nat) {
    k.Gen? && k.gen == gen
  }

  function DoPrepay(s: State, t: nat): State
    requires Ready(s, t) && s.threads[t].op.Sweeping? && s.threads[t].op.pc.Prepay?
  {
    SetPc(s, t, Head).(refs := Inc(s.refs, s.threads[t].op.job.out))
  }

  function DoHead(s: State, t: nat): State
    requires Ready(s, t) && s.threads[t].op.Sweeping? && s.threads[t].op.pc.Head?
  {
    SetPc(s, t, if s.head < 0 then Finish else Reserve(s.head))
  }

  function DoReserve(s: State, t: nat): State
    requires Ready(s, t) && s.threads[t].op.Sweeping? && s.threads[t].op.pc.Reserve?
  {
    var n := s.threads[t].op.pc.n;
    var nd := s.nodes[n];
    SetPc(SetNode(s, n, nd.(writers := nd.writers + 1, inside := nd.inside + {t})), t, HRead(n))
  }

  function DoHRead(s: State, t: nat): State
    requires Ready(s, t) && s.threads[t].op.Sweeping? && s.threads[t].op.pc.HRead?
  {
    var n := s.threads[t].op.pc.n;
    SetPc(s, t, AfterLook(n, LookAt(s, s.threads[t].op.job.cell, n)))
  }

  function DoHAddr(s: State, t: nat): State
    requires Ready(s, t) && s.threads[t].op.Sweeping? && s.threads[t].op.pc.HAddr?
  {
    var job := s.threads[t].op.job;
    var o := s.threads[t].op.pc.o;
    if s.nodes[o.n].addr != job.cell then
      SetPc(s, t, HRecheck(o))
    else
      SetBoth(s, t, Sweeping(job, HLoad(o)), LStart(Ask(job.cell, Now(s, job.cell), true)))
  }

  function DoHRecheck(s: State, t: nat): State
    requires Ready(s, t) && s.threads[t].op.Sweeping? && s.threads[t].op.pc.HRecheck?
  {
    var o := s.threads[t].op.pc.o;
    if SameGen(s.nodes[o.n].control, o.gen) then
      SetPc(s, t, Pay(o.n, 0))
    else
      SetPc(s, t, AfterLook(o.n, LookAt(s, s.threads[t].op.job.cell, o.n)))
  }

  /** The nested load returned a reference. */
  function DoHLoad(s: State, t: nat): State
    requires Ready(s, t) && s.threads[t].op.Sweeping? && s.threads[t].op.pc.HLoad? && s.threads[t].call.Done?
  {
    var g := s.threads[t].call.g;
    SetBoth(SetGuard(s, g, s.guards[g].(status := Gone)), t,
            Sweeping(s.threads[t].op.job, HTheir(s.threads[t].op.pc.o, s.guards[g].ptr)), NoCall)
  }

  function DoHTheir(s: State, t: nat): State
    requires Ready(s, t) && s.threads[t].op.Sweeping? && s.threads[t].op.pc.HTheir?
  {
    var HTheir(o, r) := s.threads[t].op.pc;
    SetPc(s, t, HMine(o, r, s.nodes[o.n].offer))
  }

  function DoHMine(s: State, t: nat): State
    requires Ready(s, t) && s.threads[t].op.Sweeping? && s.threads[t].op.pc.HMine?
  {
    var HMine(o, r, their) := s.threads[t].op.pc;
    SetPc(s, t, HWrite(o, r, their, s.nodes[s.threads[t].node].offer))
  }

  function DoHWrite(s: State, t: nat): State
    requires Ready(s, t) && s.threads[t].op.Sweeping? && s.threads[t].op.pc.HWrite?
  {
    var HWrite(o, r, their, mine) := s.threads[t].op.pc;
    SetPc(s, t, HCas(o, r, their, mine)).(env := s.env[mine := r])
  }

  function DoHCas(s: State, t: nat): State
    requires Ready(s, t) && s.threads[t].op.Sweeping? && s.threads[t].op.pc.HCas?
  {
    var HCas(o, r, their, mine) := s.threads[t].op.pc;
    var nd := s.nodes[o.n];
    if SameGen(nd.control, o.gen) then
      SetPc(SetNode(s, o.n, nd.(control := Repl(mine, r))), t, HStore(o.n, their))
    else
      SetPc(s, t, HDrop(o.n, r, LookAt(s, s.threads[t].op.job.cell, o.n)))
  }

  function DoHStore(s: State, t: nat): State
    requires Ready(s, t) && s.threads[t].op.Sweeping? && s.threads[t].op.pc.HStore?
  {
    var th := s.threads[t];
    SetPc(SetNode(s, th.node, s.nodes[th.node].(offer := th.op.pc.their)), t, Pay(th.op.pc.n, 0))
  }

  function DoHDrop(s: State, t: nat): State
    requires Ready(s, t) && s.threads[t].op.Sweeping? && s.threads[t].op.pc.HDrop?
  {
    var HDrop(n, r, look) := s.threads[t].op.pc;
    SetPc(s, t, AfterLook(n, look)).(refs := Dec(s.refs, r))
  }

  function AfterSlot(n: nat, i: nat): Pc {
    if i + 1 < SLOTS then Pay(n, i + 1) else Release(n)
  }

  function DoPay(s: State, t: nat): State
    requires Ready(s, t) && s.threads[t].op.Sweeping? && s.threads[t].op.pc.Pay?
  {
    var Pay(n, i) := s.threads[t].op.pc;
    assert NodeShape(s, n);
    if Hits(s, n, i, s.threads[t].op.job.out) then
      SetPc(Settle(s, n, i), t, PayInc(n, i))
    else
      SetPc(s, t, AfterSlot(n, i))
  }

  function DoPayInc(s: State, t: nat): State
    requires Ready(s, t) && s.threads[t].op.Sweeping? && s.threads[t].op.pc.PayInc?
  {
    var PayInc(n, i) := s.threads[t].op.pc;
    SetPc(s, t, AfterSlot(n, i)).(refs := Inc(s.refs, s.threads[t].op.job.out))
  }

  function DoRelease(s: State, t: nat): State
    requires Ready(s, t) && s.threads[t].op.Sweeping? && s.threads[t].op.pc.Release?
  {
    var n := s.threads[t].op.pc.n;
    var nd := s.nodes[n];
    SetPc(SetNode(s, n, nd.(writers := if nd.writers > 0 then nd.writers - 1 else 0, inside := nd.inside - {t})), t,
          if nd.next < 0 then Finish else Reserve(nd.next))
  }

  function DoFinish(s: State, t: nat): State
    requires Ready(s, t) && s.threads[t].op.Sweeping? && s.threads[t].op.pc.Finish?
  {
    SetPc(s, t, Swept).(refs := Dec(s.refs, s.threads[t].op.job.out))
  }

  /** The sweep returns to `swap`, `into_inner`, `drop` or `compare_and_swap`. */
  function DoSwept(s: State, t: nat): State
    requires Ready(s, t) && s.threads[t].op.Sweeping? && s.threads[t].op.pc.Swept?
  {
    var job := s.threads[t].op.job;
    var idle := SetOp(s, t, Op.Idle);
    match job.kind
    case KSwap => idle.(handles := Inc(s.handles, job.out))
    case KInner => idle.(handles := Inc(s.handles, job.out))
    case KDrop => idle.(refs := Dec(s.refs, job.out))
    case KCas(g) => SetGuard(idle, g, s.guards[g].(status := Loose)).(refs := Dec(s.refs, job.out))
  }

  function SweepStep(s: State, t: nat): State
    requires Ready(s, t) && s.threads[t].op.Sweeping?
    requires s.threads[t].op.pc.HLoad? ==> s.threads[t].call.Done?
  {
    match s.threads[t].op.pc
    case Prepay => DoPrepay(s, t)
    case Head => DoHead(s, t)
    case Reserve(_) => DoReserve(s, t)
    case HRead(_) => DoHRead(s, t)
    case HAddr(_) => DoHAddr(s, t)
    case HRecheck(_) => DoHRecheck(s, t)
    case HLoad(_) => DoHLoad(s, t)
    case HTheir(_, _) => DoHTheir(s, t)
    case HMine(_, _, _) => DoHMine(s, t)
    case HWrite(_, _, _, _) => DoHWrite(s, t)
    case HCas(_, _, _, _) => DoHCas(s, t)
    case HStore(_, _) => DoHStore(s, t)
    case HDrop(_, _, _) => DoHDrop(s, t)
    case Pay(_, _) => DoPay(s, t)
    case PayInc(_, _) => DoPayInc(s, t)
    case Release(_) => DoRelease(s, t)
    case Finish => DoFinish(s, t)
    case Swept => DoSwept(s, t)
  }

  // ---------------------------------------------------------------------------------------------
  // Node::get and LocalNode::drop

  function DoGHead(s: State, t: nat): State
    requires Ready(s, t) && s.threads[t].op.GHead?
  {
    SetOp(s, t, if s.head < 0 then GTop else GCheck(s.head))
  }

  /** Node::check_cooldown, as one access. */
  function DoGCheck(s: State, t: nat): State
    requires Ready(s, t) && s.threads[t].op.GCheck?
  {
    var n := s.threads[t].op.n;
    var nd := s.nodes[n];
    SetOp(if nd.use.Cooldown? && nd.writers == 0 then SetNode(s, n, nd.(use := Unused)) else s, t, GClaim(n))
  }

  function DoGClaim(s: State, t: nat): State
    requires Ready(s, t) && s.threads[t].op.GClaim?
  {
    var th := s.threads[t];
    var n := th.op.n;
    var nd := s.nodes[n];
    if nd.use.Unused? then
      SetNode(s, n, nd.(use := Used(t))).(threads := s.threads[t := th.(node := n, op := Op.Idle)])
    else
      SetOp(s, t, if nd.next < 0 then GTop else GCheck(nd.next))
  }

  function DoGTop(s: State, t: nat): State
    requires Ready(s, t) && s.threads[t].op.GTop?
  {
    SetOp(s, t, GPush(s.head))
  }

  /** The compare-exchange on LIST_HEAD, which may fail spuriously. */
  function DoGPush(s: State, t: nat, fail: bool): State
    requires Ready(s, t) && s.threads[t].op.GPush?
  {
    var th := s.threads[t];
    var n := |s.nodes|;
    if s.head == th.op.h && !fail then
      s.(nodes := s.nodes + [FreshNode(n, th.op.h, t)],
         env := s.env + [0],
         head := n,
         threads := s.threads[t := th.(node := n, op := Op.Idle)])
    else
      SetOp(s, t, GPush(s.head))
  }

  function DoXReserve(s: State, t: nat): State
    requires Ready(s, t) && s.threads[t].op.XReserve?
  {
    var n := s.threads[t].node;
    var nd := s.nodes[n];
    SetOp(SetNode(s, n, nd.(writers := nd.writers + 1, inside := nd.inside + {t})), t, XSwap)
  }

  function DoXSwap(s: State, t: nat): State
    requires Ready(s, t) && s.threads[t].op.XSwap?
  {
    var th := s.threads[t];
    SetNode(s, th.node, s.nodes[th.node].(use := Cooldown))
      .(threads := s.threads[t := th.(node := -1, op := XRelease(th.node))])
  }

  function DoXRelease(s: State, t: nat): State
    requires Ready(s, t) && s.threads[t].op.XRelease?
  {
    var n := s.threads[t].op.n;
    var nd := s.nodes[n];
    SetOp(SetNode(s, n, nd.(writers := if nd.writers > 0 then nd.writers - 1 else 0, inside := nd.inside - {t})), t, Exited)
  }

  // ---------------------------------------------------------------------------------------------
  // ArcSwapAny

  /** `load`, `load_full` and `Guard::into_inner` return. */
  function DoLoaded(s: State, t: nat): State
    requires Ready(s, t) && s.threads[t].op.Loading? && s.threads[t].call.Done?
  {
    var Done(ask, g) := s.threads[t].call;
    var idle := SetBoth(s, t, Op.Idle, NoCall);
    if ask.full then
      SetGuard(idle, g, s.guards[g].(status := Gone)).(handles := Inc(s.handles, s.guards[g].ptr))
    else
      SetGuard(idle, g, s.guards[g].(status := Loose))
  }

  function DoDropped(s: State, t: nat): State
    requires Ready(s, t) && s.threads[t].op.Dropping? && s.threads[t].call.Dropped?
  {
    SetBoth(s, t, Op.Idle, NoCall)
  }

  /** Store `p` into cell `c` and begin the sweep for what was there. */
  function Install(s: State, t: nat, c: nat, p: Ptr, kind: Kind): State
    requires t < |s.threads| && c < |s.cells|
  {
    var cell := s.cells[c];
    SetOp(s, t, Sweeping(Job(c, cell.val, kind, s.nextTxn), Prepay))
      .(cells := s.cells[c := cell.(val := p, hist := cell.hist + [p])])
  }

  function DoSwap(s: State, t: nat): State
    requires Ready(s, t) && s.threads[t].op.Swapping?
  {
    Install(s, t, s.threads[t].op.c, s.threads[t].op.nv, KSwap)
  }

  /** The load of `compare_and_swap` returns. */
  function DoCLoad(s: State, t: nat): State
    requires Ready(s, t) && s.threads[t].op.CLoad? && s.threads[t].call.Done?
  {
    var CLoad(c, cur, nv) := s.threads[t].op;
    var g := s.threads[t].call.g;
    SetBoth(s, t, if s.guards[g].ptr != cur then CKeep(cur, nv, g) else CTry(c, cur, nv, g), NoCall)
  }

  /** The weak compare-exchange on the storage. */
  function DoCTry(s: State, t: nat, fail: bool): State
    requires Ready(s, t) && s.threads[t].op.CTry?
  {
    var CTry(c, cur, nv, g) := s.threads[t].op;
    if s.cells[c].val == cur && !fail then
      Install(s, t, c, nv, KCas(g))
    else
      SetBoth(s, t, CRetry(c, cur, nv), if s.guards[g].debt.At? then DrPay(g) else DrDec(g))
  }

  function DoCRetry(s: State, t: nat): State
    requires Ready(s, t) && s.threads[t].op.CRetry? && s.threads[t].call.Dropped?
  {
    var CRetry(c, cur, nv) := s.threads[t].op;
    SetBoth(s, t, CLoad(c, cur, nv), LStart(Ask(c, Now(s, c), false)))
  }

  /** Nothing was stored: `new` is dropped. */
  function DoCKeep(s: State, t: nat): State
    requires Ready(s, t) && s.threads[t].op.CKeep?
  {
    var CKeep(_, nv, g) := s.threads[t].op;
    SetGuard(SetOp(s, t, Op.Idle), g, s.guards[g].(status := Loose)).(refs := Dec(s.refs, nv))
  }

  /** Thread `t` is in the middle of something. */
  predicate Busying(s: State, t: nat)
    requires t < |s.threads|
  {
    var th := s.threads[t];
    && !th.op.Idle? && !th.op.Exited?
    && (InCall(th.call) ||
        (match th.op
         case Loading => th.call.Done?
         case CLoad(_, _, _) => th.call.Done?
         case Dropping => th.call.Dropped?
         case CRetry(_, _, _) => th.call.Dropped?
         case Sweeping(_, pc) => pc.HLoad? ==> th.call.Done?
         case _ => true))
  }

  function OpStep(s: State, t: nat, fail: bool): State
    requires Ready(s, t) && Busying(s, t) && !InCall(s.threads[t].call)
  {
    match s.threads[t].op
    case GHead => DoGHead(s, t)
    case GCheck(_) => DoGCheck(s, t)
    case GClaim(_) => DoGClaim(s, t)
    case GTop => DoGTop(s, t)
    case GPush(_) => DoGPush(s, t, fail)
    case XReserve => DoXReserve(s, t)
    case XSwap => DoXSwap(s, t)
    case XRelease(_) => DoXRelease(s, t)
    case Loading => DoLoaded(s, t)
    case Dropping => DoDropped(s, t)
    case Swapping(_, _) => DoSwap(s, t)
    case Sweeping(_, _) => SweepStep(s, t)
    case CLoad(_, _, _) => DoCLoad(s, t)
    case CTry(_, _, _, _) => DoCTry(s, t, fail)
    case CRetry(_, _, _) => DoCRetry(s, t)
    case CKeep(_, _, _) => DoCKeep(s, t)
  }

  // ---------------------------------------------------------------------------------------------
  // What users may start

  datatype Action =
    | Run(t: nat, fail: bool)                          // thread t makes its next access
    | BeginLoad(t: nat, c: nat, full: bool)
    | BeginDrop(t: nat, g: nat)
    | BeginInto(t: nat, g: nat)
    | BeginSwap(t: nat, c: nat, p: Ptr)
    | BeginCas(t: nat, c: nat, cur: Ptr, p: Ptr)
    | BeginTake(t: nat, c: nat, inner: bool)           // into_inner or drop of the storage
    | BeginGet(t: nat)
    | BeginExit(t: nat)
    | Spawn
    | NewObject(p: Ptr)
    | NewCell(p: Ptr)
    | CloneHandle(p: Ptr)
    | DropHandle(p: Ptr)
    | CloneGuard(g: nat)

  /** Thread `t` may begin an operation. */
  predicate AtRest(s: State, t: nat) {
    t < |s.threads| && s.threads[t].op.Idle? && s.threads[t].call.NoCall?
  }

  predicate OpUses(op: Op, c: nat) {
    match op
    case Swapping(d, _) => d == c
    case Sweeping(job, _) => job.cell == c
    case CLoad(d, _, _) => d == c
    case CTry(d, _, _, _) => d == c
    case CRetry(d, _, _) => d == c
    case _ => false
  }

  /** Some operation of `th` borrows cell `c`. */
  predicate Borrows(th: Thread, c: nat) {
    || (UsesCell(th.call) && th.call.ask.cell == c)
    || OpUses(th.op, c)
  }

  predicate IsLive(s: State, c: nat) {
    c < |s.cells| && s.cells[c].live
  }

  ghost predicate Enabled(s: State, a: Action) {
    && Shape(s)
    && match a
       case Run(t, _) => t < |s.threads| && Busying(s, t)
       case BeginLoad(t, c, _) => AtRest(s, t) && 0 <= s.threads[t].node && IsLive(s, c)
       case BeginDrop(t, g) => AtRest(s, t) && g < |s.guards| && s.guards[g].status.Loose?
       case BeginInto(t, g) => AtRest(s, t) && g < |s.guards| && s.guards[g].status.Loose?
       case BeginSwap(t, c, p) => AtRest(s, t) && 0 <= s.threads[t].node && IsLive(s, c) && s.handles[p] > 0
       case BeginCas(t, c, _, p) => AtRest(s, t) && 0 <= s.threads[t].node && IsLive(s, c) && s.handles[p] > 0
       case BeginTake(t, c, _) =>
         // into_inner and drop own the storage: nobody else can be using it.
         && AtRest(s, t) && 0 <= s.threads[t].node && IsLive(s, c)
         && forall i :: 0 <= i < |s.threads| ==> !Borrows(s.threads[i], c)
       case BeginGet(t) => AtRest(s, t) && s.threads[t].node < 0
       case BeginExit(t) => AtRest(s, t) && 0 <= s.threads[t].node
       case Spawn => true
       case NewObject(p) => s.refs[p] == 0
       case NewCell(p) => s.handles[p] > 0
       case CloneHandle(p) => s.handles[p] > 0
       case DropHandle(p) => s.handles[p] > 0
       case CloneGuard(g) => g < |s.guards| && s.guards[g].status.Loose?
  }

  function DoBeginLoad(s: State, t: nat, c: nat, full: bool): State
    requires t < |s.threads| && c < |s.cells|
  {
    SetBoth(s, t, Loading, LStart(Ask(c, Now(s, c), full)))
  }

  function DoBeginDrop(s: State, t: nat, g: nat): State
    requires t < |s.threads| && g < |s.guards|
  {
    SetBoth(SetGuard(s, g, s.guards[g].(status := Held(t))), t, Dropping,
            if s.guards[g].debt.At? then DrPay(g) else DrDec(g))
  }

  function DoBeginInto(s: State, t: nat, g: nat): State
    requires t < |s.threads| && g < |s.guards|
  {
    var gd := s.guards[g];
    if gd.debt.At? then
      SetBoth(SetGuard(s, g, gd.(status := Held(t))), t, Loading, InInc(Ask(gd.src, 0, true), gd.ptr, g))
    else
      SetGuard(s, g, gd.(status := Gone)).(handles := Inc(s.handles, gd.ptr))
  }

  function DoBeginSwap(s: State, t: nat, c: nat, p: Ptr): State
    requires t < |s.threads|
  {
    SetOp(s, t, Swapping(c, p)).(handles := Dec(s.handles, p))
  }

  function DoBeginCas(s: State, t: nat, c: nat, cur: Ptr, p: Ptr): State
    requires t < |s.threads| && c < |s.cells|
  {
    SetBoth(s, t, CLoad(c, cur, p), LStart(Ask(c, Now(s, c), false))).(handles := Dec(s.handles, p))
  }

  function DoBeginTake(s: State, t: nat, c: nat, inner: bool): State
    requires t < |s.threads| && c < |s.cells|
  {
    SetOp(s, t, Sweeping(Job(c, s.cells[c].val, if inner then KInner else KDrop, s.nextTxn), Prepay))
      .(cells := s.cells[c := s.cells[c].(live := false)])
  }

  ghost function Apply(s: State, a: Action): State
    requires Enabled(s, a)
  {
    match a
    case Run(t, fail) =>
      assert ThreadShape(s, t);
      assert 0 <= s.threads[t].node ==> NodeShape(s, s.threads[t].node);
      assert HasGuard(s.threads[t].call) ==> GuardShape(s, s.threads[t].call.g);
      if InCall(s.threads[t].call) then CallStep(s, t) else OpStep(s, t, fail)
    case BeginLoad(t, c, full) => DoBeginLoad(s, t, c, full)
    case BeginDrop(t, g) => DoBeginDrop(s, t, g)
    case BeginInto(t, g) => DoBeginInto(s, t, g)
    case BeginSwap(t, c, p) => DoBeginSwap(s, t, c, p)
    case BeginCas(t, c, cur, p) => DoBeginCas(s, t, c, cur, p)
    case BeginTake(t, c, inner) => DoBeginTake(s, t, c, inner)
    case BeginGet(t) => SetOp(s, t, GHead)
    case BeginExit(t) => SetOp(s, t, XReserve)
    case Spawn => s.(threads := s.threads + [FreshThread])
    case NewObject(p) => s.(refs := Inc(s.refs, p), handles := Inc(s.handles, p))
    case NewCell(p) => s.(handles := Dec(s.handles, p), cells := s.cells + [Cell(true, p, [p])])
    case CloneHandle(p) => s.(refs := Inc(s.refs, p), handles := Inc(s.handles, p))
    case DropHandle(p) => s.(refs := Dec(s.refs, p), handles := Dec(s.handles, p))
    case CloneGuard(g) => s.(refs := Inc(s.refs, s.guards[g].ptr), handles := Inc(s.handles, s.guards[g].ptr))
  }

  ghost predicate Init(s: State) {
    s == State(s.useFast, multiset{}, multiset{}, [], [], -1, [], [], [], 0)
  }

  ghost predicate Next(s: State, s': State) {
    exists a :: Enabled(s, a) && s' == Apply(s, a)
  }

  ghost predicate StepAt(run: seq<State>, i: nat)
    requires i + 1 < |run|
  {
    Next(run[i], run[i + 1])
  }

  /** A finite run of the machine. */
  ghost predicate IsRun(run: seq<State>) {
    && |run| > 0
    && Init(run[0])
    && forall i: nat :: i + 1 < |run| ==> StepAt(run, i)
  }
}
