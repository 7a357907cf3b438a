/**
 The state of the hybrid protection protocol: atomic cells (`ArcSwapAny`), reference counts,
 guards, debt nodes with their slots, envelopes, and threads with a program counter.

 Every thread runs one public operation (`Op`) and at most one nested call (`Call`): a load, an
 `into_inner` of a guard or a drop of a guard.  A writer that helps a reader runs such a nested
 load while its own operation is suspended.

 Fields marked "annotation" record history for the proofs.  No branch of the protocol looks at them.
 */
module Protocol {

  /** A raw pointer.  Null is a pointer like any other here; its count has no physical counterpart. */
  type Ptr = nat

  const FAST_SLOTS: nat := 8
  /** Index of the helping slot, after the fast ones. */
  const HELPING: nat := 8
  const SLOTS: nat := 9

  /** One debt slot: `Debt::NONE`, or an owed pointer.  `who` (annotation) is the guard that wrote it. */
  datatype Slot = Free | Owes(ptr: Ptr, who: nat)

  /** The control word.  Two generations compare equal exactly when their `gen` agree; `txn`
      (annotation) numbers the read transactions of the whole run.  `val` (annotation) is the
      pointer the helper put into the envelope. */
  datatype Control = Idle | Gen(gen: nat, txn: nat) | Repl(env: nat, val: Ptr)

  /** `in_use`.  The owner is an annotation. */
  datatype Use = Unused | Used(owner: nat) | Cooldown

  /** A node.  `next` is -1 at the end of the list.  `inside` (annotation) is the set of threads
      counted by `writers`. */
  datatype Node = Node(slots: seq<Slot>, control: Control, addr: nat, offer: nat, use: Use,
                       next: int, writers: nat, inside: set<nat>)

  datatype Debt = NoDebt | At(node: nat, slot: nat)

  /** Who can touch a guard: a load that has not confirmed it, the operation of one thread,
      anybody (the user holds it), nobody any more. */
  datatype Status = Pending(t: nat) | Held(t: nat) | Loose | Gone

  /** `HybridProtection`.  `paid` (annotation) says that the guard owns a reference of its own,
      `src` (annotation) is the cell it was read from. */
  datatype Guard = Guard(ptr: Ptr, debt: Debt, paid: bool, src: nat, status: Status)

  /** `ArcSwapAny`.  `hist` (annotation) holds every value stored so far, the current one last. */
  datatype Cell = Cell(live: bool, val: Ptr, hist: seq<Ptr>)

  /** What a load was asked to do.  `since` (annotation) is the index of the version that was
      current when the load began; `full` asks for `load_full`. */
  datatype Ask = Ask(cell: nat, since: nat, full: bool)

  /** The nested call.  A constructor names the atomic access that comes next. */
  datatype Call =
    | NoCall
      // HybridProtection::attempt
    | LStart(ask: Ask)                                       // read the storage
    | LScan(ask: Ask, p: Ptr, i: nat)                        // inspect the i-th slot in rotation
    | LPut(ask: Ask, p: Ptr, j: nat)                         // swap the debt into slot j
    | LConfirm(ask: Ask, p: Ptr, g: nat)                     // read the storage again
    | LPay(ask: Ask, p: Ptr, g: nat)                         // it changed: pay our own debt back
      // HybridProtection::fallback
    | FAddr(ask: Ask)                                        // publish the address
    | FCtrl(ask: Ask)                                        // publish the generation
    | FRead(ask: Ask, x: nat)                                // read the candidate
    | FSlot(ask: Ask, x: nat, p: Ptr)                        // put it into the helping slot
    | FConf(ask: Ask, x: nat, p: Ptr, g: nat)                // swap the control back to idle
    | FEnv(ask: Ask, p: Ptr, g: nat, e: nat, r: Ptr)         // helped: read the envelope
    | FOffer(ask: Ask, p: Ptr, g: nat, e: nat, r: Ptr)       // keep the envelope
    | FPay(ask: Ask, p: Ptr, g: nat, r: Ptr)                 // pay the unused debt back
    | FDec(ask: Ask, p: Ptr, g: nat, r: Ptr)                 // somebody paid it: release
      // HybridProtection::into_inner
    | InInc(ask: Ask, p: Ptr, g: nat)
    | InPay(ask: Ask, p: Ptr, g: nat)
    | InDec(ask: Ask, p: Ptr, g: nat)
    | Done(ask: Ask, g: nat)                                 // return to the operation
      // HybridProtection::drop
    | DrPay(g: nat)
    | DrDec(g: nat)
    | Dropped

  datatype Kind = KSwap | KInner | KDrop | KCas(g: nat)

  /** A `wait_for_readers`: `out` was taken out of `cell`.  `tick` (annotation) is the number of
      read transactions that had begun by then. */
  datatype Job = Job(cell: nat, out: Ptr, kind: Kind, tick: nat)

  /** A generation that `help` has seen in the control of node `n`, with the version that was
      current then. */
  datatype Obs = Obs(n: nat, gen: nat, txn: nat, since: nat)

  datatype Look = Quiet | Busy(o: Obs)

  /** The sweep of `Debt::pay_all`, with `Slots::help` inside. */
  datatype Pc =
    | Prepay                                                 // T::inc(&val)
    | Head                                                   // load LIST_HEAD
    | Reserve(n: nat)
    | HRead(n: nat)                                          // load who.control
    | HAddr(o: Obs)                                          // load who.active_addr
    | HRecheck(o: Obs)                                       // load who.control again
    | HLoad(o: Obs)                                          // nested load of a replacement
    | HTheir(o: Obs, r: Ptr)                                 // load who.space_offer
    | HMine(o: Obs, r: Ptr, their: nat)                      // load self.space_offer
    | HWrite(o: Obs, r: Ptr, their: nat, mine: nat)          // fill the envelope
    | HCas(o: Obs, r: Ptr, their: nat, mine: nat)            // offer it
    | HStore(n: nat, their: nat)                             // keep their envelope
    | HDrop(n: nat, r: Ptr, look: Look)                      // not wanted: drop the replacement
    | Pay(n: nat, i: nat)                                    // try to pay slot i
    | PayInc(n: nat, i: nat)                                 // pre-pay the next one
    | Release(n: nat)
    | Finish                                                 // drop the spare reference
    | Swept

  datatype Op =
    | Idle
    | Exited
      // Node::get
    | GHead
    | GCheck(n: nat)
    | GClaim(n: nat)
    | GTop
    | GPush(h: int)
      // LocalNode::drop
    | XReserve
    | XSwap
    | XRelease(n: nat)
      // ArcSwapAny
    | Loading
    | Dropping
    | Swapping(c: nat, nv: Ptr)
    | Sweeping(job: Job, pc: Pc)
    | CLoad(c: nat, cur: Ptr, nv: Ptr)
    | CTry(c: nat, cur: Ptr, nv: Ptr, g: nat)
    | CRetry(c: nat, cur: Ptr, nv: Ptr)
    | CKeep(cur: Ptr, nv: Ptr, g: nat)

  /** A thread with its `LocalNode`.  `node` is -1 when it owns none. */
  datatype Thread = Thread(node: int, gen: nat, offset: nat, op: Op, call: Call)

  datatype State = State(
    useFast: bool,               // Config::USE_FAST
    refs: multiset<Ptr>,         // the reference count of every object
    handles: multiset<Ptr>,      // counted references the user holds outside
    cells: seq<Cell>,
    guards: seq<Guard>,
    head: int,                   // LIST_HEAD
    nodes: seq<Node>,            // in the order of publication
    env: seq<Ptr>,               // Handover: one envelope per node
    threads: seq<Thread>,
    nextTxn: nat)                // annotation

  const FreshThread := Thread(-1, 0, 0, Op.Idle, NoCall)

  function FreshNode(n: nat, head: int, t: nat): (nd: Node) {
    Node(seq(SLOTS, i => Free), Control.Idle, 0, n, Used(t), head, 0, {})
  }

  // ---------------------------------------------------------------------------------------------
  // Small updates

  function Inc(m: multiset<Ptr>, p: Ptr): (r: multiset<Ptr>)
    ensures forall q :: r[q] == m[q] + (if q == p then 1 else 0)
  {
    m[p := m[p] + 1]
  }

  /** A decrement of a zero count is undefined behaviour in the program.  It is shown never to occur. */
  function Dec(m: multiset<Ptr>, p: Ptr): (r: multiset<Ptr>)
    ensures forall q :: r[q] == m[q] - (if q == p && m[p] > 0 then 1 else 0)
  {
    if m[p] > 0 then m[p := m[p] - 1] else m
  }

  function SetCall(s: State, t: nat, c: Call): State
    requires t < |s.threads|
  {
    s.(threads := s.threads[t := s.threads[t].(call := c)])
  }

  function SetOp(s: State, t: nat, op: Op): State
    requires t < |s.threads|
  {
    s.(threads := s.threads[t := s.threads[t].(op := op)])
  }

  function SetBoth(s: State, t: nat, op: Op, c: Call): State
    requires t < |s.threads|
  {
    s.(threads := s.threads[t := s.threads[t].(op := op, call := c)])
  }

  function SetGuard(s: State, g: nat, gd: Guard): State
    requires g < |s.guards|
  {
    s.(guards := s.guards[g := gd])
  }

  function SetNode(s: State, n: nat, nd: Node): State
    requires n < |s.nodes|
  {
    s.(nodes := s.nodes[n := nd])
  }

  /** Index of the current version of a cell. */
  function Now(s: State, c: nat): nat
    requires c < |s.cells|
  {
    if |s.cells[c].hist| == 0 then 0 else |s.cells[c].hist| - 1
  }

  // ---------------------------------------------------------------------------------------------
  // Debt::pay

  /** The compare-exchange of `Debt::pay` would succeed. */
  predicate Hits(s: State, n: nat, j: nat, p: Ptr)
    requires n < |s.nodes| && j < |s.nodes[n].slots|
  {
    s.nodes[n].slots[j].Owes? && s.nodes[n].slots[j].ptr == p
  }

  /** The successful compare-exchange: the slot is emptied, and the guard that wrote it now owns
      the reference that the payer gives away. */
  function Settle(s: State, n: nat, j: nat): State
    requires n < |s.nodes| && j < |s.nodes[n].slots|
    requires s.nodes[n].slots[j].Owes? && s.nodes[n].slots[j].who < |s.guards|
  {
    var nd := s.nodes[n];
    var w := nd.slots[j].who;
    s.(nodes := s.nodes[n := nd.(slots := nd.slots[j := Free])],
       guards := s.guards[w := s.guards[w].(paid := true)])
  }

  // ---------------------------------------------------------------------------------------------
  // Shape: every index a program counter mentions is in range.  The invariant implies it.

  predicate NodeShape(s: State, n: nat)
    requires n < |s.nodes|
  {
    var nd := s.nodes[n];
    && |nd.slots| == SLOTS
    && (forall j :: 0 <= j < SLOTS ==> nd.slots[j].Owes? ==> nd.slots[j].who < |s.guards|)
    && nd.offer < |s.env|
    && (nd.control.Repl? ==> nd.control.env < |s.env|)
    && nd.next < |s.nodes|
  }

  predicate GuardShape(s: State, g: nat)
    requires g < |s.guards|
  {
    !s.guards[g].status.Gone? && s.guards[g].debt.At? ==>
      s.guards[g].debt.node < |s.nodes| && s.guards[g].debt.slot < SLOTS
  }

  predicate Reading(c: Call) {
    c.LStart? || c.LScan? || c.LPut? || c.LConfirm? || c.LPay? || c.FAddr? || c.FCtrl? || c.FRead? ||
    c.FSlot? || c.FConf? || c.FEnv? || c.FOffer? || c.FPay? || c.FDec?
  }

  /** The call will read its cell again. */
  predicate UsesCell(c: Call) {
    c.LStart? || c.LScan? || c.LPut? || c.LConfirm? || c.LPay? || c.FAddr? || c.FCtrl? || c.FRead? ||
    c.FSlot? || c.FConf?
  }

  predicate HasGuard(c: Call) {
    c.LConfirm? || c.LPay? || c.FConf? || c.FEnv? || c.FOffer? || c.FPay? || c.FDec? ||
    c.InInc? || c.InPay? || c.InDec? || c.Done? || c.DrPay? || c.DrDec?
  }

  /** The guard of these calls still has its debt slot. */
  predicate HasDebt(c: Call) {
    c.LConfirm? || c.LPay? || c.FConf? || c.FEnv? || c.FOffer? || c.FPay? || c.InInc? || c.InPay? || c.DrPay?
  }

  predicate CallShape(s: State, th: Thread) {
    var c := th.call;
    && (Reading(c) ==> 0 <= th.node && c.ask.cell < |s.cells|)
    && (HasGuard(c) ==> c.g < |s.guards| && !s.guards[c.g].status.Gone?)
    && (HasDebt(c) ==> s.guards[c.g].debt.At?)
    && (c.LScan? ==> c.i < FAST_SLOTS)
    && (c.LPut? ==> c.j < FAST_SLOTS)
    && ((c.FEnv? || c.FOffer?) ==> c.e < |s.env|)
  }

  predicate HasObs(pc: Pc) {
    pc.HAddr? || pc.HRecheck? || pc.HLoad? || pc.HTheir? || pc.HMine? || pc.HWrite? || pc.HCas? ||
    (pc.HDrop? && pc.look.Busy?)
  }

  function ObsOf(pc: Pc): Obs
    requires HasObs(pc)
  {
    if pc.HDrop? then pc.look.o else pc.o
  }

  /** The node a sweep is working on. */
  predicate AtNode(pc: Pc) {
    pc.Reserve? || pc.HRead? || pc.HAddr? || pc.HRecheck? || pc.HLoad? || pc.HTheir? || pc.HMine? || pc.HWrite? ||
    pc.HCas? || pc.HStore? || pc.HDrop? || pc.Pay? || pc.PayInc? || pc.Release?
  }

  function Place(pc: Pc): nat
    requires AtNode(pc)
  {
    match pc
    case Reserve(n) => n
    case HRead(n) => n
    case HAddr(o) => o.n
    case HRecheck(o) => o.n
    case HLoad(o) => o.n
    case HTheir(o, _) => o.n
    case HMine(o, _, _) => o.n
    case HWrite(o, _, _, _) => o.n
    case HCas(o, _, _, _) => o.n
    case HStore(n, _) => n
    case HDrop(n, _, _) => n
    case Pay(n, _) => n
    case PayInc(n, _) => n
    case Release(n) => n
  }

  predicate OpShape(s: State, th: Thread) {
    match th.op
    case GCheck(n) => n < |s.nodes|
    case GClaim(n) => n < |s.nodes|
    case GPush(h) => h < |s.nodes|
    case XReserve => 0 <= th.node
    case XSwap => 0 <= th.node
    case XRelease(n) => n < |s.nodes|
    case Swapping(c, _) => 0 <= th.node && c < |s.cells|
    case CLoad(c, _, _) => 0 <= th.node && c < |s.cells|
    case CTry(c, _, _, g) => 0 <= th.node && c < |s.cells| && g < |s.guards|
    case CRetry(c, _, _) => 0 <= th.node && c < |s.cells|
    case CKeep(_, _, g) => g < |s.guards|
    case Sweeping(job, pc) =>
      && 0 <= th.node
      && job.cell < |s.cells|
      && (job.kind.KCas? ==> job.kind.g < |s.guards|)
      && (AtNode(pc) ==> Place(pc) < |s.nodes|)
      && (pc.HWrite? ==> pc.mine < |s.env|)
      && (pc.HCas? ==> pc.mine < |s.env|)
      && (pc.HStore? ==> pc.their < |s.env|)
      && (pc.HCas? ==> pc.their < |s.env|)
      && (pc.Pay? ==> pc.i < SLOTS)
      && (pc.PayInc? ==> pc.i < SLOTS)
    case _ => true
  }

  predicate ThreadShape(s: State, t: nat)
    requires t < |s.threads|
  {
    var th := s.threads[t];
    && -1 <= th.node < |s.nodes|
    && CallShape(s, th)
    && OpShape(s, th)
  }

  predicate Shape(s: State) {
    && |s.env| == |s.nodes|
    && s.head < |s.nodes|
    && (forall n :: 0 <= n < |s.nodes| ==> NodeShape(s, n))
    && (forall g :: 0 <= g < |s.guards| ==> GuardShape(s, g))
    && (forall t :: 0 <= t < |s.threads| ==> ThreadShape(s, t))
  }
}
