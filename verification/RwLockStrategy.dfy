/**
 The strategy that protects reads with an `RwLock`: a storage, its lock, reference counts, and threads
 that make one access at a time.
 */
module RwLockStrategy {
  import opened AtomicCell

  /** A constructor names the access that comes next. */
  datatype Pc =
    | Rest
      // load
    | RLock
    | RRead
    | RInc(p: Ptr)
    | RUnlock(p: Ptr)
      // swap; into_inner and drop of the storage
    | WSwap
    | WLock(was: Ptr)
    | WUnlock(was: Ptr)
      // compare_and_swap
    | CLock
    | CExchange
    | CInc(was: Ptr)
    | CDec(was: Ptr)
    | CUnlock(was: Ptr)

  datatype Thread = Thread(req: Request, pc: Pc)

  datatype State = State(
    refs: multiset<Ptr>,       // the reference count of every object
    handles: multiset<Ptr>,    // references the user holds
    live: bool,                // the storage exists
    val: Ptr,
    readers: set<nat>,         // who holds the lock for reading
    writer: int,               // who holds it for writing, or -1
    threads: seq<Thread>)

  datatype Action =
    | Run(t: nat)
    | Begin(t: nat, req: Request)
    | Take(t: nat)             // into_inner or drop
    | Spawn
    | NewObject(p: Ptr)
    | NewStorage(p: Ptr)
    | CloneHandle(p: Ptr)
    | DropHandle(p: Ptr)

  function Inc(m: multiset<Ptr>, p: Ptr): multiset<Ptr> { m[p := m[p] + 1] }

  function Dec(m: multiset<Ptr>, p: Ptr): multiset<Ptr> { if m[p] > 0 then m[p := m[p] - 1] else m }

  function Put(s: State, t: nat, pc: Pc): State
    requires t < |s.threads|
  {
    s.(threads := s.threads[t := s.threads[t].(pc := pc)])
  }

  /** The lock can be had. */
  predicate Ready(s: State, t: nat)
    requires t < |s.threads|
  {
    match s.threads[t].pc
    case Rest => false
    case RLock => s.writer == -1
    case WLock(_) => s.writer == -1 && s.readers == {}
    case CLock => s.writer == -1 && s.readers == {}
    case _ => true
  }

  function Access(s: State, t: nat): State
    requires t < |s.threads| && Ready(s, t)
  {
    var th := s.threads[t];
    match th.pc
    case Rest => s
    case RLock => Put(s, t, RRead).(readers := s.readers + {t})
    case RRead => Put(s, t, RInc(s.val))
    case RInc(p) => Put(s, t, RUnlock(p)).(refs := Inc(s.refs, p))
    case RUnlock(p) => Put(s, t, Rest).(readers := s.readers - {t}, handles := Inc(s.handles, p))
    case WSwap => Put(s, t, WLock(s.val)).(val := if th.req.Swap? then th.req.nv else s.val)
    case WLock(was) => Put(s, t, WUnlock(was)).(writer := t)
    case WUnlock(was) => Put(s, t, Rest).(writer := -1, handles := Inc(s.handles, was))
    case CLock => Put(s, t, CExchange).(writer := t)
    case CExchange =>
      if th.req.Cas? && s.val == th.req.cur then Put(s, t, CUnlock(s.val)).(val := th.req.nv)
      else Put(s, t, CInc(s.val))
    case CInc(was) => Put(s, t, CDec(was)).(refs := Inc(s.refs, was))
    case CDec(was) => Put(s, t, CUnlock(was)).(refs := Dec(s.refs, if th.req.Cas? then th.req.nv else was))
    case CUnlock(was) => Put(s, t, Rest).(writer := -1, handles := Inc(s.handles, was))
  }

  function First(req: Request): Pc {
    match req
    case Load => RLock
    case Swap(_) => WSwap
    case Cas(_, _) => CLock
  }

  /** The reference that an operation takes from its caller. */
  function Given(req: Request): seq<Ptr> {
    match req
    case Load => []
    case Swap(nv) => [nv]
    case Cas(_, nv) => [nv]
  }

  predicate AllRest(s: State) {
    forall i :: 0 <= i < |s.threads| ==> s.threads[i].pc.Rest?
  }

  predicate Enabled(s: State, a: Action) {
    match a
    case Run(t) => t < |s.threads| && Ready(s, t)
    case Begin(t, req) => t < |s.threads| && s.threads[t].pc.Rest? && s.live && forall p :: p in Given(req) ==> s.handles[p] > 0
    case Take(t) => t < |s.threads| && s.live && AllRest(s)
    case Spawn => true
    case NewObject(p) => s.refs[p] == 0
    case NewStorage(p) => !s.live && AllRest(s) && s.handles[p] > 0
    case CloneHandle(p) => s.handles[p] > 0
    case DropHandle(p) => s.handles[p] > 0
  }

  function Apply(s: State, a: Action): State
    requires Enabled(s, a)
  {
    match a
    case Run(t) => Access(s, t)
    case Begin(t, req) =>
      s.(threads := s.threads[t := Thread(req, First(req))],
         handles := if Given(req) == [] then s.handles else Dec(s.handles, Given(req)[0]))
    case Take(t) => s.(threads := s.threads[t := Thread(Load, WLock(s.val))], live := false)
    case Spawn => s.(threads := s.threads + [Thread(Load, Rest)])
    case NewObject(p) => s.(refs := Inc(s.refs, p), handles := Inc(s.handles, p))
    case NewStorage(p) => s.(live := true, val := p, handles := Dec(s.handles, p))
    case CloneHandle(p) => s.(refs := Inc(s.refs, p), handles := Inc(s.handles, p))
    case DropHandle(p) => s.(refs := Dec(s.refs, p), handles := Dec(s.handles, p))
  }

  predicate Init(s: State) {
    s == State(multiset{}, multiset{}, false, 0, {}, -1, [])
  }

  ghost predicate StepAt(run: seq<State>, i: nat)
    requires i + 1 < |run|
  {
    exists a :: Enabled(run[i], a) && run[i + 1] == Apply(run[i], a)
  }

  ghost predicate IsRun(run: seq<State>) {
    |run| > 0 && Init(run[0]) && forall i: nat :: i + 1 < |run| ==> StepAt(run, i)
  }

  // ---------------------------------------------------------------------------------------------
  // Invariant

  predicate Reads(pc: Pc) { pc.RRead? || pc.RInc? || pc.RUnlock? }

  predicate Writes(pc: Pc) { pc.WUnlock? || pc.CExchange? || pc.CInc? || pc.CDec? || pc.CUnlock? }

  predicate LockOK(s: State) {
    && (forall t :: t in s.readers ==> t < |s.threads|)
    && (forall t :: 0 <= t < |s.threads| ==> (t in s.readers <==> Reads(s.threads[t].pc)))
    && (forall t :: 0 <= t < |s.threads| ==> (s.writer == t <==> Writes(s.threads[t].pc)))
    && (s.readers == {} || s.writer == -1)
    && -1 <= s.writer < |s.threads|
  }

  predicate Waits(pc: Pc, p: Ptr) { pc == WLock(p) }

  /** A pointer that was read but not counted yet is still in the storage, or with a writer that waits
      for the lock. */
  ghost predicate Protected(s: State, p: Ptr) {
    (s.live && s.val == p) || exists w :: 0 <= w < |s.threads| && Waits(s.threads[w].pc, p)
  }

  /** A load or swap does not run the accesses of another request. */
  predicate Fits(req: Request, pc: Pc) {
    match pc
    case Rest => true
    case RLock => req.Load?
    case RRead => req.Load?
    case RInc(_) => req.Load?
    case RUnlock(_) => req.Load?
    case WSwap => req.Swap?
    case WLock(_) => !req.Cas?
    case WUnlock(_) => !req.Cas?
    case _ => req.Cas?
  }

  /** These accesses still need the storage. */
  predicate NeedsLive(pc: Pc) {
    pc.RLock? || pc.RRead? || pc.WSwap? || pc.CLock? || pc.CExchange?
  }

  ghost predicate ThreadOK(s: State, t: nat)
    requires t < |s.threads|
  {
    var th := s.threads[t];
    && Fits(th.req, th.pc)
    && (NeedsLive(th.pc) ==> s.live)
    && (th.pc.RInc? ==> Protected(s, th.pc.p))
    && (th.pc.CInc? ==> Protected(s, th.pc.was))
  }

  function Eq(p: Ptr, q: Ptr): nat { if p == q then 1 else 0 }

  function New(req: Request, p: Ptr): nat {
    if Given(req) == [] then 0 else Eq(Given(req)[0], p)
  }

  function Owns(th: Thread, p: Ptr): nat {
    match th.pc
    case RUnlock(q) => Eq(q, p)
    case WSwap => New(th.req, p)
    case WLock(q) => Eq(q, p)
    case WUnlock(q) => Eq(q, p)
    case CLock => New(th.req, p)
    case CExchange => New(th.req, p)
    case CInc(_) => New(th.req, p)
    case CDec(q) => Eq(q, p) + New(th.req, p)
    case CUnlock(q) => Eq(q, p)
    case _ => 0
  }

  function Sum(xs: seq<Thread>, p: Ptr): nat {
    if |xs| == 0 then 0 else Sum(xs[..|xs| - 1], p) + Owns(xs[|xs| - 1], p)
  }

  function Stored(s: State, p: Ptr): nat { if s.live then Eq(s.val, p) else 0 }

  function Owned(s: State, p: Ptr): nat {
    s.handles[p] + Stored(s, p) + Sum(s.threads, p)
  }

  ghost predicate Balanced(s: State) {
    forall p {:trigger Owned(s, p)} :: s.refs[p] == Owned(s, p)
  }

  ghost predicate Inv(s: State) {
    && LockOK(s)
    && (forall t :: 0 <= t < |s.threads| ==> ThreadOK(s, t))
    && Balanced(s)
  }

  lemma {:induction false} SumUpdate(xs: seq<Thread>, t: nat, th: Thread, p: Ptr)
    requires t < |xs|
    ensures Sum(xs[t := th], p) + Owns(xs[t], p) == Sum(xs, p) + Owns(th, p)
    decreases |xs|
  {
    var k := |xs| - 1;
    if t < k {
      assert xs[t := th][..k] == xs[..k][t := th];
      SumUpdate(xs[..k], t, th, p);
    } else {
      assert xs[t := th][..k] == xs[..k];
    }
  }

  lemma {:induction false} SumPart(xs: seq<Thread>, t: nat, p: Ptr)
    requires t < |xs|
    ensures Owns(xs[t], p) <= Sum(xs, p)
    decreases |xs|
  {
    if t < |xs| - 1 { SumPart(xs[..|xs| - 1], t, p); }
  }

  /** What is protected is alive. */
  lemma ProtectedAlive(s: State, p: Ptr)
    requires Balanced(s) && Protected(s, p)
    ensures s.refs[p] > 0
  {
    assert s.refs[p] == Owned(s, p);
    if !(s.live && s.val == p) {
      var w :| 0 <= w < |s.threads| && Waits(s.threads[w].pc, p);
      SumPart(s.threads, w, p);
    }
  }

  lemma OwnedAlive(s: State, t: nat, p: Ptr)
    requires Balanced(s) && t < |s.threads| && Owns(s.threads[t], p) > 0
    ensures s.refs[p] > 0
  {
    assert s.refs[p] == Owned(s, p);
    SumPart(s.threads, t, p);
  }

  /** A pointer stays protected: a writer that holds it passes the lock only when nobody is inside. */
  lemma StaysProtected(s: State, t: nat, u: nat, p: Ptr)
    requires Inv(s) && t < |s.threads| && Ready(s, t) && u < |s.threads| && u != t
    requires s.threads[u].pc == RInc(p) || s.threads[u].pc == CInc(p)
    ensures Protected(Access(s, t), p)
  {
    var s' := Access(s, t);
    assert ThreadOK(s, u) && ThreadOK(s, t);
    if s.live && s.val == p {
      if !(s'.live && s'.val == p) { assert Waits(s'.threads[t].pc, p); }
    } else {
      var w :| 0 <= w < |s.threads| && Waits(s.threads[w].pc, p);
      assert w != t;
      assert Waits(s'.threads[w].pc, p);
    }
  }

  /** An access of a reader or of `swap` changes as many counts as owners. */
  lemma DeltaRead(s: State, t: nat, p: Ptr)
    requires t < |s.threads| && Ready(s, t) && ThreadOK(s, t) && !s.threads[t].req.Cas?
    ensures var s' := Access(s, t);
      s'.refs[p] + s.handles[p] + Stored(s, p) + Owns(s.threads[t], p) ==
      s.refs[p] + s'.handles[p] + Stored(s', p) + Owns(s'.threads[t], p)
  {
  }

  lemma DeltaCas(s: State, t: nat, p: Ptr)
    requires t < |s.threads| && Ready(s, t) && ThreadOK(s, t) && s.threads[t].req.Cas?
    requires s.threads[t].pc.CDec? ==> s.refs[s.threads[t].req.nv] > 0
    ensures var s' := Access(s, t);
      s'.refs[p] + s.handles[p] + Stored(s, p) + Owns(s.threads[t], p) ==
      s.refs[p] + s'.handles[p] + Stored(s', p) + Owns(s'.threads[t], p)
  {
  }

  lemma AccessOthers(s: State, t: nat)
    requires t < |s.threads| && Ready(s, t)
    ensures |Access(s, t).threads| == |s.threads| && Access(s, t).threads == s.threads[t := Access(s, t).threads[t]]
  {
  }

  lemma AccessBalance(s: State, t: nat)
    requires Inv(s) && t < |s.threads| && Ready(s, t)
    ensures Balanced(Access(s, t))
  {
    var s' := Access(s, t);
    var th := s.threads[t];
    assert ThreadOK(s, t);
    AccessOthers(s, t);
    if th.pc.CDec? { OwnedAlive(s, t, th.req.nv); }
    forall p ensures s'.refs[p] == Owned(s', p) {
      assert s.refs[p] == Owned(s, p);
      SumUpdate(s.threads, t, s'.threads[t], p);
      if th.req.Cas? { DeltaCas(s, t, p); } else { DeltaRead(s, t, p); }
    }
  }

  lemma AccessOK(s: State, t: nat)
    requires Inv(s) && t < |s.threads| && Ready(s, t)
    ensures Inv(Access(s, t))
  {
    var s' := Access(s, t);
    AccessBalance(s, t);
    AccessLock(s, t);
    assert ThreadOK(s, t);
    forall u | 0 <= u < |s'.threads| ensures ThreadOK(s', u) {
      assert ThreadOK(s, u);
      if u != t {
        if s.threads[u].pc.RInc? { StaysProtected(s, t, u, s.threads[u].pc.p); }
        if s.threads[u].pc.CInc? { StaysProtected(s, t, u, s.threads[u].pc.was); }
      }
    }
  }

  lemma AccessLock(s: State, t: nat)
    requires LockOK(s) && t < |s.threads| && Ready(s, t)
    ensures LockOK(Access(s, t))
  {
    if s.threads[t].pc.RLock? || s.threads[t].pc.RUnlock? { ReadLock(s, t); } else { WriteLock(s, t); }
  }

  lemma ReadLock(s: State, t: nat)
    requires LockOK(s) && t < |s.threads| && Ready(s, t) && (s.threads[t].pc.RLock? || s.threads[t].pc.RUnlock?)
    ensures LockOK(Access(s, t))
  {
  }

  lemma WriteLock(s: State, t: nat)
    requires LockOK(s) && t < |s.threads| && Ready(s, t) && !s.threads[t].pc.RLock? && !s.threads[t].pc.RUnlock?
    ensures LockOK(Access(s, t))
  {
    var s' := Access(s, t);
    assert s'.readers == s.readers && Reads(s'.threads[t].pc) == Reads(s.threads[t].pc);
    AccessOthers(s, t);
  }

  lemma BeginOK(s: State, t: nat, req: Request)
    requires Inv(s) && Enabled(s, Begin(t, req))
    ensures Inv(Apply(s, Begin(t, req)))
  {
    var s' := Apply(s, Begin(t, req));
    forall p ensures s'.refs[p] == Owned(s', p) {
      assert s.refs[p] == Owned(s, p);
      SumUpdate(s.threads, t, s'.threads[t], p);
      if Given(req) != [] { assert Given(req)[0] in Given(req); }
    }
    forall u | 0 <= u < |s'.threads| ensures ThreadOK(s', u) {
      assert ThreadOK(s, u);
      KeepsWaiting(s, s', t, u);
    }
  }

  /** A thread at rest begins something: those that wait go on waiting. */
  lemma KeepsWaiting(s: State, s': State, t: nat, u: nat)
    requires u < |s.threads| && t < |s.threads| == |s'.threads| && s.threads[t].pc.Rest?
    requires forall i :: 0 <= i < |s.threads| && i != t ==> s'.threads[i] == s.threads[i]
    requires s'.live == s.live && s'.val == s.val
    ensures forall p :: Protected(s, p) ==> Protected(s', p)
  {
    forall p | Protected(s, p) ensures Protected(s', p) {
      if !(s.live && s.val == p) {
        var w :| 0 <= w < |s.threads| && Waits(s.threads[w].pc, p);
        assert Waits(s'.threads[w].pc, p);
      }
    }
  }

  lemma TakeOK(s: State, t: nat)
    requires Inv(s) && Enabled(s, Take(t))
    ensures Inv(Apply(s, Take(t)))
  {
    var s' := Apply(s, Take(t));
    forall p ensures s'.refs[p] == Owned(s', p) {
      assert s.refs[p] == Owned(s, p);
      SumUpdate(s.threads, t, s'.threads[t], p);
    }
    forall u | 0 <= u < |s'.threads| ensures ThreadOK(s', u) { assert ThreadOK(s, u); }
  }

  lemma OutsideOK(s: State, a: Action)
    requires Inv(s) && Enabled(s, a) && (a.Spawn? || a.NewObject? || a.NewStorage? || a.CloneHandle? || a.DropHandle?)
    ensures Inv(Apply(s, a))
  {
    var s' := Apply(s, a);
    OutsideBalance(s, a);
    forall u | 0 <= u < |s'.threads| ensures ThreadOK(s', u) {
      if u < |s.threads| { assert ThreadOK(s, u); OutsideProtects(s, a); }
    }
  }

  lemma OutsideBalance(s: State, a: Action)
    requires Balanced(s) && Enabled(s, a) && (a.Spawn? || a.NewObject? || a.NewStorage? || a.CloneHandle? || a.DropHandle?)
    ensures Balanced(Apply(s, a))
  {
    var s' := Apply(s, a);
    forall p ensures s'.refs[p] == Owned(s', p) {
      assert s.refs[p] == Owned(s, p);
      if a.Spawn? { assert s'.threads[..|s.threads|] == s.threads; }
      if a.DropHandle? { HandleAlive(s, a.p); }
    }
  }

  lemma OutsideProtects(s: State, a: Action)
    requires Inv(s) && Enabled(s, a) && (a.Spawn? || a.NewObject? || a.CloneHandle? || a.DropHandle? || a.NewStorage?)
    ensures a.NewStorage? || forall p :: Protected(s, p) ==> Protected(Apply(s, a), p)
  {
    var s' := Apply(s, a);
    if !a.NewStorage? {
      forall p | Protected(s, p) ensures Protected(s', p) {
        if !(s.live && s.val == p) {
          var w :| 0 <= w < |s.threads| && Waits(s.threads[w].pc, p);
          assert Waits(s'.threads[w].pc, p);
        }
      }
    }
  }

  /** The invariant holds in every state of every run. */
  lemma {:induction false} RunOK(run: seq<State>, k: nat)
    requires IsRun(run) && k < |run|
    ensures Inv(run[k])
    decreases k
  {
    if k > 0 {
      RunOK(run, k - 1);
      assert StepAt(run, k - 1);
      var a :| Enabled(run[k - 1], a) && run[k] == Apply(run[k - 1], a);
      match a
      case Run(t) => AccessOK(run[k - 1], t);
      case Begin(t, req) => BeginOK(run[k - 1], t, req);
      case Take(t) => TakeOK(run[k - 1], t);
      case _ => OutsideOK(run[k - 1], a);
    }
  }

  // ---------------------------------------------------------------------------------------------
  // What it means

  /** No reader and no writer increments or decrements a count that is zero: waiting for the write lock
      is enough. */
  lemma NeverTouchesDead(run: seq<State>, k: nat, t: nat)
    requires IsRun(run) && k < |run| && t < |run[k].threads|
    ensures run[k].threads[t].pc.RInc? ==> run[k].refs[run[k].threads[t].pc.p] > 0
    ensures run[k].threads[t].pc.CInc? ==> run[k].refs[run[k].threads[t].pc.was] > 0
    ensures run[k].threads[t].pc.CDec? ==> run[k].threads[t].req.Cas? && run[k].refs[run[k].threads[t].req.nv] > 0
  {
    RunOK(run, k);
    var s := run[k];
    var th := s.threads[t];
    assert ThreadOK(s, t);
    if th.pc.RInc? { ProtectedAlive(s, th.pc.p); }
    if th.pc.CInc? { ProtectedAlive(s, th.pc.was); }
    if th.pc.CDec? { OwnedAlive(s, t, th.req.nv); }
  }

  lemma {:induction false} NoneOwned(xs: seq<Thread>, p: Ptr)
    requires forall t :: 0 <= t < |xs| ==> xs[t].pc.Rest?
    ensures Sum(xs, p) == 0
  {
    if |xs| > 0 { NoneOwned(xs[..|xs| - 1], p); }
  }

  lemma WriterActs(s: State)
    requires LockOK(s) && s.writer >= 0
    ensures !AllRest(s)
  {
    assert Writes(s.threads[s.writer].pc);
  }

  /** When nothing is going on, the lock is free and each count is the storage plus the handles. */
  lemma QuiescentCounts(run: seq<State>, k: nat, p: Ptr)
    requires IsRun(run) && k < |run| && AllRest(run[k])
    ensures run[k].refs[p] == run[k].handles[p] + (if run[k].live then Eq(run[k].val, p) else 0)
    ensures run[k].readers == {} && run[k].writer == -1
  {
    RunOK(run, k);
    assert run[k].refs[p] == Owned(run[k], p);
    NoneOwned(run[k].threads, p);
    if run[k].writer >= 0 { WriterActs(run[k]); }
  }

  // ---------------------------------------------------------------------------------------------
  // Refinement of the atomic cell

  /** The pointer that an operation will return, once it knows. */
  predicate Returns(pc: Pc, p: Ptr) {
    match pc
    case RInc(q) => p == q
    case RUnlock(q) => p == q
    case WLock(q) => p == q
    case WUnlock(q) => p == q
    case CInc(q) => p == q
    case CDec(q) => p == q
    case CUnlock(q) => p == q
    case _ => false
  }

  predicate Undecided(pc: Pc) { pc.RLock? || pc.RRead? || pc.WSwap? || pc.CLock? || pc.CExchange? }

  /** Thread `t` takes effect between `a` and `b`, and knows its answer from then on. */
  ghost predicate Effective(a: State, b: State, t: nat, req: Request) {
    && t < |a.threads| && t < |b.threads| && Undecided(a.threads[t].pc) && Returns(b.threads[t].pc, Answer(req, a.val))
    && a.live && b.live && b.val == After(req, a.val)
  }

  /** One access of an operation in progress. */
  ghost predicate OwnMove(a: State, b: State, t: nat, p: Ptr)
    requires t < |a.threads| && t < |b.threads|
  {
    var th, th' := a.threads[t], b.threads[t];
    && th'.req == th.req
    && (Undecided(th.pc) && !Undecided(th'.pc) ==> Effective(a, b, t, th.req))
    && (Returns(th.pc, p) ==> Returns(th'.pc, p) || (th'.pc.Rest? && b.handles == Inc(a.handles, p)))
  }

  lemma AccessEffect(s: State, t: nat, p: Ptr)
    requires t < |s.threads| && Ready(s, t) && ThreadOK(s, t) && !s.threads[t].pc.Rest?
    ensures t < |Access(s, t).threads| && OwnMove(s, Access(s, t), t, p)
    ensures Effective(s, Access(s, t), t, s.threads[t].req) || Access(s, t).val == s.val
  {
  }

  lemma StepEffect(run: seq<State>, k: nat, t: nat, p: Ptr)
    requires IsRun(run) && k + 1 < |run| && t < |run[k].threads| && !run[k].threads[t].pc.Rest?
    ensures t < |run[k + 1].threads| && OwnMove(run[k], run[k + 1], t, p)
  {
    RunOK(run, k);
    assert ThreadOK(run[k], t);
    assert StepAt(run, k);
    var a :| Enabled(run[k], a) && run[k + 1] == Apply(run[k], a);
    if a == Run(t) {
      AccessEffect(run[k], t, p);
    } else {
      OthersMove(run[k], a, t);
    }
  }

  lemma OthersMove(s: State, a: Action, t: nat)
    requires Enabled(s, a) && a != Run(t) && t < |s.threads| && !s.threads[t].pc.Rest?
    ensures t < |Apply(s, a).threads| && Apply(s, a).threads[t] == s.threads[t]
  {
    if a.Run? { AccessOthers(s, a.t); }
  }

  /** An operation in progress is undecided, or took effect at one moment and keeps to its answer. */
  lemma {:induction false} EffectSoFar(run: seq<State>, i: nat, j: nat, t: nat, req: Request) returns (k: nat)
    requires IsRun(run) && i <= j < |run| && t < |run[i].threads| && run[i].threads[t] == Thread(req, First(req))
    requires forall m :: i <= m <= j ==> t < |run[m].threads| && !run[m].threads[t].pc.Rest?
    ensures i <= k <= j && run[j].threads[t].req == req
    ensures k == j ==> Undecided(run[j].threads[t].pc)
    ensures k < j ==> Effective(run[k], run[k + 1], t, req)
    ensures forall x :: k < x <= j ==> Returns(run[x].threads[t].pc, Answer(req, run[k].val))
    decreases j - i
  {
    k := j;
    if i < j {
      k := EffectSoFar(run, i, j - 1, t, req);
      StepEffect(run, j - 1, t, Answer(req, run[k].val));
      if k == j - 1 && Undecided(run[j].threads[t].pc) { k := j; }
    }
  }

  /** In the step after `i` the user takes action `a`. */
  ghost predicate Begins(run: seq<State>, i: nat, a: Action) {
    i + 1 < |run| && Enabled(run[i], a) && run[i + 1] == Apply(run[i], a)
  }

  /** Thread `t` is at work on what began after `i` until `j`, where it is at rest again. */
  ghost predicate Working(run: seq<State>, i: nat, j: nat, t: nat) {
    && i < j < |run|
    && (forall m :: i < m < j ==> t < |run[m].threads| && !run[m].threads[t].pc.Rest?)
    && t < |run[j].threads| && run[j].threads[t].pc.Rest?
  }

  /** Every operation takes effect at one moment of its call, as the atomic cell says, and hands its
      answer to the caller.  The object in question lives from that moment to the end: the answer is exact. */
  lemma RefinesCell(run: seq<State>, i: nat, j: nat, t: nat, req: Request) returns (k: nat)
    requires IsRun(run) && Begins(run, i, Begin(t, req)) && Working(run, i, j, t)
    ensures i < k < j && Effective(run[k], run[k + 1], t, req)
    ensures run[j].handles == Inc(run[j - 1].handles, Answer(req, run[k].val))
    ensures forall x :: k <= x <= j ==> run[x].refs[Answer(req, run[k].val)] > 0
  {
    k := EffectSoFar(run, i + 1, j - 1, t, req);
    var p := Answer(req, run[k].val);
    StepEffect(run, j - 1, t, p);
    forall x | k <= x <= j ensures run[x].refs[p] > 0 {
      RunOK(run, x);
      if x == k { ProtectedAlive(run[x], p); } else if x < j { ReturnedAlive(run[x], t, p); } else { HandleAlive(run[x], p); }
    }
  }

  /** What an operation is going to return is alive. */
  lemma ReturnedAlive(s: State, t: nat, p: Ptr)
    requires Inv(s) && t < |s.threads| && Returns(s.threads[t].pc, p)
    ensures s.refs[p] > 0
  {
    assert ThreadOK(s, t);
    if s.threads[t].pc.RInc? || s.threads[t].pc.CInc? { ProtectedAlive(s, p); } else { OwnedAlive(s, t, p); }
  }

  lemma HandleAlive(s: State, p: Ptr)
    requires Balanced(s) && s.handles[p] > 0
    ensures s.refs[p] > 0
  {
    assert s.refs[p] == Owned(s, p);
  }

  /** Between two states the value changes only when some operation takes effect. */
  lemma OnlyEffectsWrite(run: seq<State>, k: nat) returns (t: nat)
    requires IsRun(run) && k + 1 < |run| && run[k].live && run[k + 1].val != run[k].val
    ensures t < |run[k].threads| && Effective(run[k], run[k + 1], t, run[k].threads[t].req)
  {
    RunOK(run, k);
    assert StepAt(run, k);
    var a :| Enabled(run[k], a) && run[k + 1] == Apply(run[k], a);
    assert a.Run?;
    t := a.t;
    assert ThreadOK(run[k], t);
    AccessEffect(run[k], t, 0);
  }

  lemma TakeStep(run: seq<State>, m: nat, t: nat, p: Ptr)
    requires IsRun(run) && m + 1 < |run| && t < |run[m].threads| && (run[m].threads[t].pc == WLock(p) || run[m].threads[t].pc == WUnlock(p))
    ensures t < |run[m + 1].threads|
    ensures run[m + 1].threads[t].pc == WLock(p) || run[m + 1].threads[t].pc == WUnlock(p) ||
      (run[m].threads[t].pc == WUnlock(p) && run[m + 1].threads[t].pc.Rest? && run[m + 1].handles == Inc(run[m].handles, p))
  {
    RunOK(run, m);
    assert StepAt(run, m);
    var a :| Enabled(run[m], a) && run[m + 1] == Apply(run[m], a);
    if a != Run(t) { OthersMove(run[m], a, t); }
  }

  lemma {:induction false} TakeSoFar(run: seq<State>, i: nat, j: nat, t: nat, m: nat)
    requires IsRun(run) && Begins(run, i, Take(t)) && Working(run, i, j, t) && i < m < j
    ensures run[m].threads[t].pc == WLock(run[i].val) || run[m].threads[t].pc == WUnlock(run[i].val)
    decreases m
  {
    if m > i + 1 {
      TakeSoFar(run, i, j, t, m - 1);
      TakeStep(run, m - 1, t, run[i].val);
    }
  }

  /** `into_inner` of the storage, and the first part of its drop: the storage is gone at once, the lock is had
      for writing while no reader is inside, and the user gets exactly the reference that the storage held. */
  lemma TakeCall(run: seq<State>, i: nat, j: nat, t: nat)
    requires IsRun(run) && Begins(run, i, Take(t)) && Working(run, i, j, t)
    ensures run[i].live && !run[i + 1].live
    ensures i + 1 < j && run[j - 1].writer == t && run[j - 1].readers == {}
    ensures run[j].handles == Inc(run[j - 1].handles, run[i].val)
  {
    TakeSoFar(run, i, j, t, j - 1);
    TakeStep(run, j - 1, t, run[i].val);
    RunOK(run, j - 1);
  }
}
