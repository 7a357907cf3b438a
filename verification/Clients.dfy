/**
 `rcu` and `Cache` on top of the atomic cell.

 Objects have an identity here, and addresses are reused: an object that nobody refers to may be freed,
 and its address may be given to another one.  Pointers are compared by address, as the program does.

 A load or compare-and-swap answers, at its end, for one version that the cell had during the call.  The
 caller gets whatever lives at that address then.  With an exact strategy that is the object of that
 version; otherwise it may be a newer one.
 */
module Clients {
  import opened AtomicCell

  /** `rcu`.  A constructor names what comes next.  The number after a pointer (annotation) is the identity
      of the object that was meant, `since` (annotation) the version that was current when the access of
      the cell began. */
  datatype RcuStep =
    | RLoad(since: nat)
    | RCall(cur: Ptr, curId: nat)                                  // call the closure, box its result
    | RCas(cur: Ptr, curId: nat, new_: Ptr, newId: nat, since: nat)
    | RReturn(prev: Ptr, prevId: nat)

  /** `Cache::load`. */
  datatype CacheStep = Quiet | Peek | Reload(since: nat) | Loaded

  datatype Client =
    | Rest
    | Rcu(ticket: nat, step: RcuStep)
    | Filling(since: nat)                                          // Cache::new
    | Cache(cached: Ptr, id: nat, now: CacheStep)

  /** Who stored a version: an update, or anybody else. */
  datatype Origin = Plain | Update(ticket: nat)

  datatype Version = Version(ptr: Ptr, id: nat, origin: Origin)

  datatype State<!V> = State(
    exact: bool,                   // what the strategy guarantees
    cell: Ptr,
    heap: map<Ptr, nat>,           // the object at each address in use
    contents: seq<V>,              // what each object holds
    hist: seq<Version>,            // annotation: every version of the cell, the current one last
    updates: seq<V -> V>,          // the closures, by ticket
    clients: seq<Client>)

  datatype Action<!V> =
    | Run(c: nat, at: Ptr, v: nat) // client c goes on; an allocation would be at `at`, an answer would be for version v
    | BeginRcu(c: nat, f: V -> V)
    | NewCache(c: nat)
    | CacheLoad(c: nat)
    | DropCache(c: nat)
    | Join
    | Store(p: Ptr)                // somebody stores an object that is alive
    | Create(p: Ptr, content: V)   // somebody creates an object
    | Free(p: Ptr)                 // the last reference went away

  /** What a client refers to. */
  function Refs(c: Client): set<Ptr> {
    match c
    case Rest => {}
    case Filling(_) => {}
    case Cache(p, _, _) => {p}
    case Rcu(_, RLoad(_)) => {}
    case Rcu(_, RCall(p, _)) => {p}
    case Rcu(_, RCas(p, _, q, _, _)) => {p, q}
    case Rcu(_, RReturn(p, _)) => {p}
  }

  predicate Referred<V>(s: State<V>, p: Ptr) {
    p == s.cell || exists c :: 0 <= c < |s.clients| && p in Refs(s.clients[c])
  }

  /** An access that began at version `since` may answer for version `v`.  It can only have stored if that
      version is the current one. */
  predicate Offers<V>(s: State<V>, req: Request, since: nat, v: nat) {
    && since <= v < |s.hist|
    && var p := Answer(req, s.hist[v].ptr);
    && p in s.heap && (s.exact ==> s.heap[p] == s.hist[v].id)
    && (Stores(req, s.hist[v].ptr) ==> v == |s.hist| - 1)
  }

  /** The access of the cell that a client is about to end. */
  predicate Ends<V>(s: State<V>, c: Client, v: nat) {
    match c
    case Filling(since) => Offers(s, Load, since, v)
    case Cache(_, _, Reload(since)) => Offers(s, Load, since, v)
    case Rcu(_, RLoad(since)) => Offers(s, Load, since, v)
    case Rcu(_, RCas(cur, _, new_, _, since)) => Offers(s, Cas(cur, new_), since, v)
    case _ => true
  }

  ghost predicate Enabled<V>(s: State<V>, a: Action<V>) {
    && |s.hist| > 0
    && match a
       case Run(c, at, v) =>
         && c < |s.clients| && Ends(s, s.clients[c], v)
         && (match s.clients[c]
             case Rest => false
             case Filling(_) => true
             case Cache(_, _, now) => now.Peek? || now.Reload?
             case Rcu(_, step) => step.RCall? ==> at !in s.heap)
       case BeginRcu(c, _) => c < |s.clients| && s.clients[c].Rest?
       case NewCache(c) => c < |s.clients| && s.clients[c].Rest?
       case CacheLoad(c) => c < |s.clients| && s.clients[c].Cache? && (s.clients[c].now.Quiet? || s.clients[c].now.Loaded?)
       case DropCache(c) => c < |s.clients| && s.clients[c].Cache?
       case Join => true
       case Store(p) => p in s.heap
       case Create(p, _) => p !in s.heap
       case Free(p) => p in s.heap && !Referred(s, p)
  }

  function Id<V>(s: State<V>, p: Ptr): nat { if p in s.heap then s.heap[p] else 0 }

  function Now<V>(s: State<V>): nat { if |s.hist| == 0 then 0 else |s.hist| - 1 }

  function Put<V>(s: State<V>, c: nat, cl: Client): State<V>
    requires c < |s.clients|
  {
    s.(clients := s.clients[c := cl])
  }

  /** The cell after `req`, which stores. */
  function Storing<V>(s: State<V>, req: Request, origin: Origin): State<V> {
    var p := After(req, s.cell);
    s.(cell := p, hist := s.hist + [Version(p, Id(s, p), origin)])
  }

  /** One access of `rcu`. */
  ghost function RcuAccess<V>(s: State<V>, c: nat, at: Ptr, v: nat): State<V>
    requires c < |s.clients| && s.clients[c].Rcu? && Ends(s, s.clients[c], v)
  {
    var Rcu(t, step) := s.clients[c];
    match step
    case RLoad(_) =>
      var p := Answer(Load, s.hist[v].ptr);
      Put(s, c, Rcu(t, RCall(p, s.heap[p])))
    case RCall(cur, id) =>
      if t < |s.updates| && id < |s.contents| then
        Put(s, c, Rcu(t, RCas(cur, id, at, |s.contents|, Now(s))))
          .(heap := s.heap[at := |s.contents|], contents := s.contents + [s.updates[t](s.contents[id])])
      else s
    case RCas(cur, id, new_, newId, _) =>
      var prev := Answer(Cas(cur, new_), s.hist[v].ptr);
      if Stores(Cas(cur, new_), s.hist[v].ptr) then
        Put(Storing(s, Cas(cur, new_), Update(t)), c, Rcu(t, RReturn(prev, s.heap[prev])))
      else
        Put(s, c, Rcu(t, RCall(prev, s.heap[prev])))
    case RReturn(_, _) => Put(s, c, Rest)
  }

  /** One access of `Cache::new` or `Cache::revalidate`. */
  function CacheAccess<V>(s: State<V>, c: nat, v: nat): State<V>
    requires c < |s.clients| && Ends(s, s.clients[c], v)
  {
    match s.clients[c]
    case Filling(_) =>
      var p := Answer(Load, s.hist[v].ptr);
      Put(s, c, Cache(p, s.heap[p], Quiet))
    case Cache(p, id, Peek) => Put(s, c, Cache(p, id, if p != Answer(Load, s.cell) then Reload(Now(s)) else Loaded))
    case Cache(_, _, Reload(_)) =>
      var p := Answer(Load, s.hist[v].ptr);
      Put(s, c, Cache(p, s.heap[p], Loaded))
    case _ => s
  }

  ghost function Apply<V>(s: State<V>, a: Action<V>): State<V>
    requires Enabled(s, a)
  {
    match a
    case Run(c, at, v) => if s.clients[c].Rcu? then RcuAccess(s, c, at, v) else CacheAccess(s, c, v)
    case BeginRcu(c, f) => Put(s, c, Rcu(|s.updates|, RLoad(Now(s)))).(updates := s.updates + [f])
    case NewCache(c) => Put(s, c, Filling(Now(s)))
    case CacheLoad(c) => Put(s, c, s.clients[c].(now := Peek))
    case DropCache(c) => Put(s, c, Rest)
    case Join => s.(clients := s.clients + [Rest])
    case Store(p) => Storing(s, Swap(p), Plain)
    case Create(p, v) => s.(heap := s.heap[p := |s.contents|], contents := s.contents + [v])
    case Free(p) => s.(heap := s.heap - {p})
  }

  ghost predicate Init<V>(s: State<V>) {
    && |s.contents| == 1 && s.heap == map[s.cell := 0] && s.hist == [Version(s.cell, 0, Plain)]
    && s.updates == [] && s.clients == []
  }

  ghost predicate StepAt<V(!new)>(run: seq<State<V>>, i: nat)
    requires i + 1 < |run|
  {
    exists a :: Enabled(run[i], a) && run[i + 1] == Apply(run[i], a)
  }

  ghost predicate IsRun<V(!new)>(run: seq<State<V>>) {
    |run| > 0 && Init(run[0]) && forall i: nat :: i + 1 < |run| ==> StepAt(run, i)
  }

  /** In the step after `i` the user takes action `a`. */
  ghost predicate Begins<V>(run: seq<State<V>>, i: nat, a: Action<V>) {
    i + 1 < |run| && Enabled(run[i], a) && run[i + 1] == Apply(run[i], a)
  }

  // ---------------------------------------------------------------------------------------------
  // Invariant

  /** The address still means the object that was meant. */
  predicate Means<V>(s: State<V>, p: Ptr, id: nat) {
    p in s.heap && s.heap[p] == id
  }

  predicate HeapOK<V>(s: State<V>) {
    && (forall p :: p in s.heap ==> s.heap[p] < |s.contents|)
    && |s.hist| > 0 && s.hist[|s.hist| - 1].ptr == s.cell && Means(s, s.cell, s.hist[|s.hist| - 1].id)
    && (forall k :: 0 <= k < |s.hist| ==> s.hist[k].id < |s.contents|)
  }

  predicate Active(c: Client, t: nat) { c.Rcu? && c.ticket == t }

  /** Client `c` has got the answer of its update. */
  predicate Answered(c: Client) { c.Rcu? && c.step.RReturn? }

  ghost predicate ClientOK<V>(s: State<V>, c: nat)
    requires c < |s.clients|
  {
    match s.clients[c]
    case Rest => true
    case Filling(_) => true
    case Cache(p, id, _) => Means(s, p, id)
    case Rcu(t, step) =>
      && t < |s.updates|
      && (match step
          case RLoad(_) => true
          case RCall(p, id) => Means(s, p, id)
          case RCas(p, id, q, newId, _) =>
            Means(s, p, id) && Means(s, q, newId) && id < |s.contents| && newId < |s.contents| &&
            s.contents[newId] == s.updates[t](s.contents[id])
          case RReturn(p, id) => Means(s, p, id) && Replaced(s, t, id))
  }

  /** Version `k` was stored by update `t`. */
  predicate By<V>(s: State<V>, k: nat, t: nat) {
    k < |s.hist| && s.hist[k].origin == Update(t)
  }

  /** Update `t` was stored over object `id`. */
  ghost predicate Replaced<V>(s: State<V>, t: nat, id: nat) {
    exists k :: 0 < k < |s.hist| && By(s, k, t) && s.hist[k - 1].id == id
  }

  /** Every update was applied to the very version that it replaced. */
  ghost predicate LinkOK<V>(s: State<V>, k: nat)
    requires k < |s.hist|
  {
    s.hist[k].origin.Update? ==>
      && k > 0 && s.hist[k].origin.ticket < |s.updates| && s.hist[k].id < |s.contents| && s.hist[k - 1].id < |s.contents|
      && s.contents[s.hist[k].id] == s.updates[s.hist[k].origin.ticket](s.contents[s.hist[k - 1].id])
  }

  ghost predicate Stored<V>(s: State<V>, t: nat) {
    exists k :: 0 <= k < |s.hist| && By(s, k, t)
  }

  ghost predicate Running<V>(s: State<V>, t: nat) {
    exists c :: 0 <= c < |s.clients| && Active(s.clients[c], t) && !Answered(s.clients[c])
  }

  /** An update is stored exactly when it is no longer running. */
  ghost predicate TicketOK<V>(s: State<V>, t: nat) {
    Stored(s, t) <==> !Running(s, t)
  }

  ghost predicate Inv<V>(s: State<V>) {
    && HeapOK(s)
    && (forall c :: 0 <= c < |s.clients| ==> ClientOK(s, c))
    && (forall b, c, t :: 0 <= b < c < |s.clients| && Active(s.clients[b], t) ==> !Active(s.clients[c], t))
    && (forall k :: 0 <= k < |s.hist| ==> LinkOK(s, k))
    && (forall k, l, t :: 0 <= k < l < |s.hist| && By(s, k, t) ==> !By(s, l, t))
    && (forall t :: 0 <= t < |s.updates| ==> TicketOK(s, t))
  }

  // ---------------------------------------------------------------------------------------------
  // Preservation

  /** Objects keep their contents, closures their tickets, and what `c` refers to stays in place. */
  ghost predicate Keeps<V>(s: State<V>, s': State<V>, c: Client) {
    && s.contents <= s'.contents && s.updates <= s'.updates && s.hist <= s'.hist
    && forall p :: p in Refs(c) && p in s.heap ==> Means(s', p, s.heap[p])
  }

  lemma ClientStable<V>(s: State<V>, s': State<V>, c: nat)
    requires c < |s.clients| && c < |s'.clients| && s'.clients[c] == s.clients[c] && ClientOK(s, c) && Keeps(s, s', s.clients[c])
    ensures ClientOK(s', c)
  {
    if s.clients[c].Rcu? && s.clients[c].step.RReturn? {
      var t, id := s.clients[c].ticket, s.clients[c].step.prevId;
      var k :| 0 < k < |s.hist| && By(s, k, t) && s.hist[k - 1].id == id;
      assert By(s', k, t);
    }
  }

  lemma LinksStable<V>(s: State<V>, s': State<V>)
    requires s.hist <= s'.hist && s.contents <= s'.contents && s.updates <= s'.updates
    requires forall k :: 0 <= k < |s.hist| ==> LinkOK(s, k)
    ensures forall k :: 0 <= k < |s.hist| ==> LinkOK(s', k)
  {
    forall k | 0 <= k < |s.hist| ensures LinkOK(s', k) { assert LinkOK(s, k); }
  }

  /** Client `c` moves on, and no version is stored. */
  lemma QuietMove<V>(s: State<V>, s': State<V>, c: nat)
    requires Inv(s) && c < |s.clients| == |s'.clients| && s'.clients == s.clients[c := s'.clients[c]]
    requires s'.hist == s.hist && s'.cell == s.cell && s.contents <= s'.contents && s'.updates == s.updates
    requires forall p :: p in s.heap ==> Means(s', p, s.heap[p])
    requires forall p :: p in s'.heap ==> s'.heap[p] < |s'.contents|
    requires ClientOK(s', c)
    requires forall t :: Active(s'.clients[c], t) ==> Active(s.clients[c], t)
    requires forall t :: (Active(s'.clients[c], t) && !Answered(s'.clients[c])) == (Active(s.clients[c], t) && !Answered(s.clients[c]))
    ensures Inv(s')
  {
    LinksStable(s, s');
    forall d | 0 <= d < |s'.clients| ensures ClientOK(s', d) {
      if d != c { assert ClientOK(s, d); ClientStable(s, s', d); }
    }
    forall t | 0 <= t < |s'.updates| ensures TicketOK(s', t) {
      assert TicketOK(s, t);
      SameTicket(s, s', t);
    }
    SameOrigins(s, s');
  }

  lemma SameOrigins<V>(s: State<V>, s': State<V>)
    requires s'.hist == s.hist
    requires forall k, l, t :: 0 <= k < l < |s.hist| && By(s, k, t) ==> !By(s, l, t)
    ensures forall k, l, t :: 0 <= k < l < |s'.hist| && By(s', k, t) ==> !By(s', l, t)
  {
    forall k, l, t | 0 <= k < l < |s'.hist| && By(s', k, t) ensures !By(s', l, t) { assert By(s, k, t) && !By(s, l, t); }
  }

  lemma SameTicket<V>(s: State<V>, s': State<V>, t: nat)
    requires s'.hist == s.hist && |s'.clients| == |s.clients|
    requires forall c :: 0 <= c < |s.clients| ==>
      (Active(s'.clients[c], t) && !Answered(s'.clients[c])) == (Active(s.clients[c], t) && !Answered(s.clients[c]))
    ensures Stored(s', t) == Stored(s, t) && Running(s', t) == Running(s, t)
  {
    if Stored(s, t) { var k :| 0 <= k < |s.hist| && By(s, k, t); assert By(s', k, t); }
    if Stored(s', t) { var k :| 0 <= k < |s'.hist| && By(s', k, t); assert By(s, k, t); }
    if Running(s, t) { var c :| 0 <= c < |s.clients| && Active(s.clients[c], t) && !Answered(s.clients[c]); assert Active(s'.clients[c], t); }
    if Running(s', t) { var c :| 0 <= c < |s'.clients| && Active(s'.clients[c], t) && !Answered(s'.clients[c]); assert Active(s.clients[c], t); }
  }

  /** Only the heap changes: an object appears, or one that nobody refers to goes away. */
  lemma HeapMove<V>(s: State<V>, s': State<V>)
    requires Inv(s) && s' == s.(heap := s'.heap, contents := s'.contents) && s.contents <= s'.contents
    requires forall p :: p in s.heap && Referred(s, p) ==> Means(s', p, s.heap[p])
    requires forall p :: p in s'.heap ==> s'.heap[p] < |s'.contents|
    ensures Inv(s')
  {
    LinksStable(s, s');
    assert Referred(s, s.cell);
    forall d | 0 <= d < |s'.clients| ensures ClientOK(s', d) {
      assert ClientOK(s, d);
      forall p | p in Refs(s.clients[d]) && p in s.heap ensures Means(s', p, s.heap[p]) { assert Referred(s, p); }
      ClientStable(s, s', d);
    }
    forall t | 0 <= t < |s'.updates| ensures TicketOK(s', t) { assert TicketOK(s, t); SameTicket(s, s', t); }
    SameOrigins(s, s');
  }

  lemma BeginOK<V>(s: State<V>, c: nat, f: V -> V)
    requires Inv(s) && c < |s.clients| && s.clients[c].Rest?
    ensures Inv(Put(s, c, Rcu(|s.updates|, RLoad(Now(s)))).(updates := s.updates + [f]))
  {
    var s' := Put(s, c, Rcu(|s.updates|, RLoad(Now(s)))).(updates := s.updates + [f]);
    LinksStable(s, s');
    forall d | 0 <= d < |s'.clients| ensures ClientOK(s', d) {
      if d != c { assert ClientOK(s, d); ClientStable(s, s', d); }
    }
    forall t | 0 <= t < |s'.updates| ensures TicketOK(s', t) {
      if t < |s.updates| {
        assert TicketOK(s, t);
        SameTicket(s, s', t);
      } else {
        assert Active(s'.clients[c], t) && !Answered(s'.clients[c]);
        forall k | 0 <= k < |s'.hist| ensures !By(s', k, t) { assert LinkOK(s, k); }
      }
    }
    SameOrigins(s, s');
    forall a, b, t | 0 <= a < b < |s'.clients| && Active(s'.clients[a], t) ensures !Active(s'.clients[b], t) {
      if a != c { assert ClientOK(s, a); }
      if b != c { assert ClientOK(s, b); }
      if a != c && b != c { assert Active(s.clients[a], t); }
    }
  }

  lemma JoinOK<V>(s: State<V>)
    requires Inv(s)
    ensures Inv(s.(clients := s.clients + [Rest]))
  {
    var s' := s.(clients := s.clients + [Rest]);
    LinksStable(s, s');
    forall d | 0 <= d < |s.clients| ensures ClientOK(s', d) { assert ClientOK(s, d); ClientStable(s, s', d); }
    forall t | 0 <= t < |s'.updates| ensures TicketOK(s', t) {
      assert TicketOK(s, t);
      if Stored(s, t) { var k :| 0 <= k < |s.hist| && By(s, k, t); assert By(s', k, t); }
      if Stored(s', t) { var k :| 0 <= k < |s'.hist| && By(s', k, t); assert By(s, k, t); }
      if Running(s, t) { var c :| 0 <= c < |s.clients| && Active(s.clients[c], t) && !Answered(s.clients[c]); assert Active(s'.clients[c], t); }
      if Running(s', t) { var c :| 0 <= c < |s'.clients| && Active(s'.clients[c], t) && !Answered(s'.clients[c]); assert Active(s.clients[c], t); }
    }
    SameOrigins(s, s');
    forall a, b, t | 0 <= a < b < |s'.clients| && Active(s'.clients[a], t) ensures !Active(s'.clients[b], t) {
      if b < |s.clients| { assert Active(s.clients[a], t); }
    }
  }

  lemma StoreOK<V>(s: State<V>, p: Ptr)
    requires Inv(s) && p in s.heap
    ensures Inv(Storing(s, Swap(p), Plain))
  {
    var s' := Storing(s, Swap(p), Plain);
    LinksStable(s, s');
    forall d | 0 <= d < |s'.clients| ensures ClientOK(s', d) { assert ClientOK(s, d); ClientStable(s, s', d); }
    forall t | 0 <= t < |s'.updates| ensures TicketOK(s', t) {
      assert TicketOK(s, t);
      if Stored(s, t) { var k :| 0 <= k < |s.hist| && By(s, k, t); assert By(s', k, t); }
      if Stored(s', t) { var k :| 0 <= k < |s'.hist| && By(s', k, t); assert By(s, k, t); }
      assert Running(s', t) == Running(s, t);
    }
    forall k, l, t | 0 <= k < l < |s'.hist| && By(s', k, t) ensures !By(s', l, t) {
      assert By(s, k, t);
      if l < |s.hist| { assert !By(s, l, t); }
    }
  }

  /** The compare-exchange of `rcu` succeeds.  The guard on `cur` has kept its address from being reused,
      so the version that is replaced is the one the closure saw. */
  lemma RcuStores<V>(s: State<V>, c: nat, at: Ptr, v: nat)
    requires Inv(s) && c < |s.clients| && s.clients[c].Rcu? && s.clients[c].step.RCas? && Ends(s, s.clients[c], v)
    requires s.hist[v].ptr == s.clients[c].step.cur
    ensures Inv(RcuAccess(s, c, at, v))
  {
    var s' := RcuAccess(s, c, at, v);
    var Rcu(x, RCas(cur, id, new_, newId, _)) := s.clients[c];
    assert ClientOK(s, c);
    assert s.hist[|s.hist| - 1].id == id;
    LinksStable(s, s');
    assert LinkOK(s', |s.hist|);
    assert By(s', |s.hist|, x) && s'.hist[|s.hist| - 1].id == id;
    forall d | 0 <= d < |s'.clients| ensures ClientOK(s', d) {
      if d != c { assert ClientOK(s, d); ClientStable(s, s', d); }
    }
    assert Active(s.clients[c], x) && !Answered(s.clients[c]);
    assert Running(s, x) && TicketOK(s, x);
    forall k, l, t | 0 <= k < l < |s'.hist| && By(s', k, t) ensures !By(s', l, t) {
      assert By(s, k, t);
      if l < |s.hist| { assert !By(s, l, t); } else { assert Stored(s, t); }
    }
    forall t | 0 <= t < |s'.updates| ensures TicketOK(s', t) {
      assert TicketOK(s, t);
      StoredTicket(s, s', c, x, t);
    }
  }

  lemma StoredTicket<V>(s: State<V>, s': State<V>, c: nat, x: nat, t: nat)
    requires Inv(s) && TicketOK(s, t) && c < |s.clients| && Active(s.clients[c], x) && !Answered(s.clients[c])
    requires |s'.clients| == |s.clients| && (forall d :: 0 <= d < |s.clients| && d != c ==> s'.clients[d] == s.clients[d])
    requires Active(s'.clients[c], x) && Answered(s'.clients[c])
    requires |s'.hist| == |s.hist| + 1 && s'.hist[..|s.hist|] == s.hist && s'.hist[|s.hist|].origin == Update(x)
    ensures TicketOK(s', t)
  {
    if Stored(s, t) { var k :| 0 <= k < |s.hist| && By(s, k, t); assert By(s', k, t); }
    if t == x {
      assert By(s', |s.hist|, x);
      forall d | 0 <= d < |s'.clients| ensures !(Active(s'.clients[d], t) && !Answered(s'.clients[d])) {
      }
    } else {
      if Stored(s', t) { var k :| 0 <= k < |s'.hist| && By(s', k, t); assert By(s, k, t); }
      if Running(s, t) { var d :| 0 <= d < |s.clients| && Active(s.clients[d], t) && !Answered(s.clients[d]); assert Active(s'.clients[d], t); }
      if Running(s', t) { var d :| 0 <= d < |s'.clients| && Active(s'.clients[d], t) && !Answered(s'.clients[d]); assert Active(s.clients[d], t); }
    }
  }

  lemma AccessOK<V>(s: State<V>, a: Action<V>)
    requires Inv(s) && Enabled(s, a) && a.Run?
    ensures Inv(Apply(s, a))
  {
    var s' := Apply(s, a);
    assert ClientOK(s, a.c);
    if s.clients[a.c].Rcu? && s.clients[a.c].step.RCas? && s.hist[a.v].ptr == s.clients[a.c].step.cur {
      RcuStores(s, a.c, a.at, a.v);
    } else {
      QuietMove(s, s', a.c);
    }
  }

  lemma ActionOK<V>(s: State<V>, a: Action<V>)
    requires Inv(s) && Enabled(s, a)
    ensures Inv(Apply(s, a))
  {
    match a
    case Run(_, _, _) => AccessOK(s, a);
    case BeginRcu(c, f) => BeginOK(s, c, f);
    case NewCache(c) => QuietMove(s, Apply(s, a), c);
    case CacheLoad(c) => assert ClientOK(s, c); QuietMove(s, Apply(s, a), c);
    case DropCache(c) => QuietMove(s, Apply(s, a), c);
    case Join => JoinOK(s);
    case Store(p) => StoreOK(s, p);
    case Create(_, _) => HeapMove(s, Apply(s, a));
    case Free(_) => HeapMove(s, Apply(s, a));
  }

  lemma {:induction false} RunOK<V(!new)>(run: seq<State<V>>, k: nat)
    requires IsRun(run) && k < |run|
    ensures Inv(run[k])
    decreases k
  {
    if k > 0 {
      RunOK(run, k - 1);
      assert StepAt(run, k - 1);
      var a :| Enabled(run[k - 1], a) && run[k] == Apply(run[k - 1], a);
      ActionOK(run[k - 1], a);
    }
  }

  // ---------------------------------------------------------------------------------------------
  // rcu

  /** The updates that stored versions `b + 1` to `e`, in that order. */
  function Tickets<V>(s: State<V>, b: nat, e: nat): seq<nat>
    requires b <= e < |s.hist|
    requires forall k :: b < k <= e ==> s.hist[k].origin.Update?
  {
    if b == e then [] else Tickets(s, b, e - 1) + [s.hist[e].origin.ticket]
  }

  predicate Known(ts: seq<nat>, n: nat) {
    forall i :: 0 <= i < |ts| ==> ts[i] < n
  }

  /** The closures applied one after the other. */
  function Compose<V>(fs: seq<V -> V>, ts: seq<nat>, v: V): V
    requires Known(ts, |fs|)
  {
    if |ts| == 0 then v else fs[ts[|ts| - 1]](Compose(fs, ts[..|ts| - 1], v))
  }

  lemma {:induction false} VersionsCompose<V>(s: State<V>, b: nat, e: nat)
    requires Inv(s) && b <= e < |s.hist|
    requires forall k :: b < k <= e ==> s.hist[k].origin.Update?
    ensures s.hist[b].id < |s.contents| && s.hist[e].id < |s.contents|
    ensures Known(Tickets(s, b, e), |s.updates|)
    ensures s.contents[s.hist[e].id] == Compose(s.updates, Tickets(s, b, e), s.contents[s.hist[b].id])
    decreases e - b
  {
    if b < e {
      VersionsCompose(s, b, e - 1);
      assert LinkOK(s, e);
      assert Tickets(s, b, e)[..|Tickets(s, b, e)| - 1] == Tickets(s, b, e - 1);
    }
  }

  /** What the cell holds is what was stored last without `rcu`, with all updates since then applied to
      it in the order in which they were stored. */
  lemma RcuComposes<V(!new)>(run: seq<State<V>>, m: nat, b: nat)
    requires IsRun(run) && m < |run| && b < |run[m].hist|
    requires forall k :: b < k < |run[m].hist| ==> run[m].hist[k].origin.Update?
    ensures var s := run[m];
      && s.cell in s.heap && s.heap[s.cell] < |s.contents| && s.hist[b].id < |s.contents|
      && var ts := Tickets(s, b, |s.hist| - 1);
      && Known(ts, |s.updates|)
      && s.contents[s.heap[s.cell]] == Compose(s.updates, ts, s.contents[s.hist[b].id])
  {
    RunOK(run, m);
    VersionsCompose(run[m], b, |run[m].hist| - 1);
  }

  /** `rcu` returns the object that its own update was computed from and stored over. */
  lemma RcuReturnsWhatItReplaced<V(!new)>(run: seq<State<V>>, m: nat, c: nat)
    requires IsRun(run) && m < |run| && c < |run[m].clients| && Answered(run[m].clients[c])
    ensures Means(run[m], run[m].clients[c].step.prev, run[m].clients[c].step.prevId)
    ensures exists k :: 0 < k < |run[m].hist| && By(run[m], k, run[m].clients[c].ticket) && run[m].hist[k - 1].id == run[m].clients[c].step.prevId
  {
    RunOK(run, m);
    assert ClientOK(run[m], c);
  }

  predicate RcuRuns(cl: Client) { cl.Rcu? && !Answered(cl) }

  /** The user calls `rcu` with closure `f` after `i`, and it has its answer at `m`. */
  ghost predicate RcuCalled<V>(run: seq<State<V>>, i: nat, m: nat, c: nat, f: V -> V) {
    && Begins(run, i, BeginRcu(c, f)) && i < m < |run|
    && (forall x :: i < x < m ==> c < |run[x].clients| && RcuRuns(run[x].clients[c]))
    && c < |run[m].clients| && !RcuRuns(run[m].clients[c])
  }

  /** In the step after `x` client `c` stores a version. */
  ghost predicate StoresAt<V>(run: seq<State<V>>, x: nat, c: nat) {
    && x + 1 < |run| && c < |run[x].clients| && c < |run[x + 1].clients|
    && run[x + 1].hist != run[x].hist && run[x + 1].clients[c] != run[x].clients[c]
  }

  /** The closure under a ticket is the one that the caller gave. */
  lemma {:induction false} OwnClosure<V(!new)>(run: seq<State<V>>, i: nat, m: nat, x: nat, c: nat, f: V -> V)
    requires IsRun(run) && RcuCalled(run, i, m, c, f) && i < x < m
    ensures run[x].clients[c].ticket == |run[i].updates| < |run[x].updates| && run[x].updates[|run[i].updates|] == f
    decreases x
  {
    if x > i + 1 {
      OwnClosure(run, i, m, x - 1, c, f);
      var a := StepOf(run, x - 1);
      RcuMoves(run[x - 1], a, c);
    }
  }

  /** One step, seen from an `rcu` that runs. */
  lemma RcuMoves<V>(s: State<V>, a: Action<V>, c: nat)
    requires Inv(s) && Enabled(s, a) && c < |s.clients| && RcuRuns(s.clients[c])
    ensures var s' := Apply(s, a);
      && s.updates <= s'.updates && c < |s'.clients|
      && s'.clients[c].Rcu? && s'.clients[c].ticket == s.clients[c].ticket
      && (RcuRuns(s'.clients[c]) ==> s'.hist == s.hist || s'.clients[c] == s.clients[c])
      && (Answered(s'.clients[c]) ==>
            && s'.contents == s.contents && s'.updates == s.updates
            && |s'.hist| == |s.hist| + 1 && s.hist <= s'.hist && By(s', |s.hist|, s.clients[c].ticket)
            && s'.hist[|s.hist| - 1].id == s'.clients[c].step.prevId)
  {
    assert ClientOK(s, c);
  }

  /** `rcu` stores exactly one version in the whole call: its caller's closure applied to the very object that
      this version replaced, which is the one it returns. */
  lemma RcuCall<V(!new)>(run: seq<State<V>>, i: nat, m: nat, c: nat, f: V -> V) returns (x: nat)
    requires IsRun(run) && RcuCalled(run, i, m, c, f)
    ensures Answered(run[m].clients[c]) && i < x < m && StoresAt(run, x, c)
    ensures forall y :: i <= y < m && StoresAt(run, y, c) ==> y == x
    ensures var s := run[m]; var k := |run[x].hist|;
      && Now(run[i]) < k < |s.hist| && s.hist[k - 1].id < |s.contents| && s.hist[k].id < |s.contents|
      && s.contents[s.hist[k].id] == f(s.contents[s.hist[k - 1].id])
      && s.hist[k - 1].id == s.clients[c].step.prevId
      && Means(s, s.clients[c].step.prev, s.clients[c].step.prevId)
  {
    x := m - 1;
    OwnClosure(run, i, m, x, c, f);
    var a := StepOf(run, x);
    RcuMoves(run[x], a, c);
    HistGrows(run, i, x);
    RunOK(run, i);
    assert ClientOK(run[m], c) && LinkOK(run[m], |run[x].hist|);
    forall y | i <= y < m && StoresAt(run, y, c) ensures y == x {
      if i < y < x { StoresNothing(run, y, c); }
    }
  }

  lemma StoresNothing<V(!new)>(run: seq<State<V>>, y: nat, c: nat)
    requires IsRun(run) && y + 1 < |run| && c < |run[y].clients| && c < |run[y + 1].clients|
    requires RcuRuns(run[y].clients[c]) && RcuRuns(run[y + 1].clients[c])
    ensures !StoresAt(run, y, c)
  {
    var a := StepOf(run, y);
    RcuMoves(run[y], a, c);
  }

  /** A compare-exchange of `rcu` that does not store goes on with another pointer than before: one that the
      cell has held since that compare-exchange began. */
  lemma RetryReadsAgain<V(!new)>(run: seq<State<V>>, m: nat, c: nat)
    requires IsRun(run) && m + 1 < |run| && c < |run[m].clients| && run[m].clients[c].Rcu? && run[m].clients[c].step.RCas?
    requires c < |run[m + 1].clients| && run[m + 1].clients[c] != run[m].clients[c] && RcuRuns(run[m + 1].clients[c])
    ensures var old_, now := run[m].clients[c].step, run[m + 1].clients[c].step;
      && now.RCall? && now.cur != old_.cur && Means(run[m + 1], now.cur, now.curId)
      && exists v :: old_.since <= v < |run[m].hist| && run[m].hist[v].ptr == now.cur
  {
    var a := StepOf(run, m);
    assert a.Run? && a.c == c;
    assert ClientOK(run[m + 1], c);
  }

  /** A plain store takes effect at once. */
  lemma StoreCall<V(!new)>(run: seq<State<V>>, i: nat, p: Ptr)
    requires IsRun(run) && Begins(run, i, Store(p))
    ensures run[i + 1].cell == p && p in run[i].heap && Current(run[i + 1]) == run[i].heap[p]
    ensures run[i + 1].clients == run[i].clients && run[i + 1].heap == run[i].heap && run[i + 1].contents == run[i].contents
  {
    RunOK(run, i + 1);
  }

  /** No update is lost and none is applied twice: one that has been answered was stored exactly once,
      and one that still runs was not stored. */
  lemma NoUpdateIsLost<V(!new)>(run: seq<State<V>>, m: nat, t: nat)
    requires IsRun(run) && m < |run| && t < |run[m].updates|
    ensures Running(run[m], t) <==> forall k :: 0 <= k < |run[m].hist| ==> !By(run[m], k, t)
    ensures forall k, l :: 0 <= k < |run[m].hist| && 0 <= l < |run[m].hist| && By(run[m], k, t) && By(run[m], l, t) ==> k == l
  {
    RunOK(run, m);
    var s := run[m];
    assert TicketOK(s, t);
    if forall k :: 0 <= k < |s.hist| ==> !By(s, k, t) { assert !Stored(s, t); }
    forall k, l | 0 <= k < |s.hist| && 0 <= l < |s.hist| && By(s, k, t) && By(s, l, t) ensures k == l {
    }
  }

  // ---------------------------------------------------------------------------------------------
  // Identity over runs

  /** The action between two states of a run. */
  lemma StepOf<V(!new)>(run: seq<State<V>>, m: nat) returns (a: Action<V>)
    requires IsRun(run) && m + 1 < |run|
    ensures Inv(run[m]) && Inv(run[m + 1]) && Enabled(run[m], a) && run[m + 1] == Apply(run[m], a)
  {
    RunOK(run, m);
    RunOK(run, m + 1);
    assert StepAt(run, m);
    a :| Enabled(run[m], a) && run[m + 1] == Apply(run[m], a);
  }

  /** In the step after `m` an object is created at `p`. */
  ghost predicate Appears<V>(run: seq<State<V>>, m: nat, p: Ptr) {
    m + 1 < |run| && p !in run[m].heap && p in run[m + 1].heap
  }

  ghost predicate NoneAppears<V>(run: seq<State<V>>, k: nat, m: nat, p: Ptr) {
    forall x :: k <= x < m ==> !Appears(run, x, p)
  }

  /** One step, seen from an address. */
  lemma HeapStep<V>(s: State<V>, a: Action<V>, p: Ptr)
    requires Enabled(s, a)
    ensures var s' := Apply(s, a);
      && |s.contents| <= |s'.contents| && s'.exact == s.exact
      && (p in s'.heap ==> if p in s.heap then s'.heap[p] == s.heap[p] else s'.heap[p] == |s.contents|)
  {
  }

  lemma StepHeap<V(!new)>(run: seq<State<V>>, m: nat, p: Ptr)
    requires IsRun(run) && m + 1 < |run|
    ensures |run[m].contents| <= |run[m + 1].contents| && run[m + 1].exact == run[m].exact
    ensures p in run[m + 1].heap ==>
      if p in run[m].heap then run[m + 1].heap[p] == run[m].heap[p] else run[m + 1].heap[p] == |run[m].contents|
  {
    var a := StepOf(run, m);
    HeapStep(run[m], a, p);
  }

  /** An address that was free later means an object that did not exist then. */
  lemma {:induction false} NewerObject<V(!new)>(run: seq<State<V>>, m: nat, j: nat, p: Ptr)
    requires IsRun(run) && m <= j < |run|
    ensures |run[m].contents| <= |run[j].contents| && run[j].exact == run[m].exact
    ensures p !in run[m].heap && p in run[j].heap ==> run[j].heap[p] >= |run[m].contents|
    decreases j
  {
    if m < j {
      NewerObject(run, m, j - 1, p);
      StepHeap(run, j - 1, p);
    }
  }

  lemma {:induction false} StaysInUse<V(!new)>(run: seq<State<V>>, k: nat, j: nat, p: Ptr)
    requires IsRun(run) && k <= j < |run| && p in run[k].heap && NoneAppears(run, k, j, p)
    ensures p in run[j].heap ==> run[j].heap[p] == run[k].heap[p]
    decreases j
  {
    if k < j {
      assert NoneAppears(run, k, j - 1, p) && !Appears(run, j - 1, p);
      StaysInUse(run, k, j - 1, p);
      StepHeap(run, j - 1, p);
    }
  }

  /** An address means the same object at two moments if and only if none was created there in between. */
  lemma SameObjectIff<V(!new)>(run: seq<State<V>>, k: nat, j: nat, p: Ptr)
    requires IsRun(run) && k <= j < |run| && p in run[k].heap && p in run[j].heap
    ensures run[k].heap[p] == run[j].heap[p] <==> NoneAppears(run, k, j, p)
  {
    if NoneAppears(run, k, j, p) {
      StaysInUse(run, k, j, p);
    } else {
      var x :| k <= x < j && Appears(run, x, p);
      NewerObject(run, x, j, p);
      NewerObject(run, k, x, p);
      RunOK(run, k);
    }
  }

  // ---------------------------------------------------------------------------------------------
  // Cache

  /** The object in the cell. */
  function Current<V>(s: State<V>): nat { Id(s, s.cell) }

  lemma HistStep<V>(s: State<V>, a: Action<V>)
    requires Enabled(s, a)
    ensures s.hist <= Apply(s, a).hist && |Apply(s, a).hist| <= |s.hist| + 1
  {
  }

  /** A version that is current or newer at `i`, and exists at `m`, was current in between. */
  lemma {:induction false} VersionWasCurrent<V(!new)>(run: seq<State<V>>, i: nat, m: nat, v: nat) returns (k: nat)
    requires IsRun(run) && i <= m < |run| && Now(run[i]) <= v < |run[m].hist|
    ensures i <= k <= m && run[k].cell == run[m].hist[v].ptr && Current(run[k]) == run[m].hist[v].id
    decreases m
  {
    RunOK(run, m);
    if v == |run[m].hist| - 1 {
      k := m;
    } else if i < m {
      var a := StepOf(run, m - 1);
      HistStep(run[m - 1], a);
      k := VersionWasCurrent(run, i, m - 1, v);
    }
  }

  lemma {:induction false} HistGrows<V(!new)>(run: seq<State<V>>, i: nat, m: nat)
    requires IsRun(run) && i <= m < |run|
    ensures run[i].hist <= run[m].hist
    decreases m
  {
    if i < m {
      HistGrows(run, i, m - 1);
      var a := StepOf(run, m - 1);
      HistStep(run[m - 1], a);
    }
  }

  /** At moment `k` the cell held pointer `p`, and, if the strategy is exact or the cache was hit, object `id`. */
  ghost predicate Answers<V>(s: State<V>, p: Ptr, id: nat, hit: bool) {
    s.cell == p && (s.exact || hit ==> Current(s) == id)
  }

  /** From `i` to `m` client `c` is in `Cache::load`, without going to the storage if `hit`. */
  ghost predicate CacheSees<V>(run: seq<State<V>>, i: nat, m: nat, c: nat, hit: bool) {
    && i <= m < |run| && c < |run[m].clients| && run[m].clients[c].Cache?
    && match run[m].clients[c].now
       case Loaded => exists k :: i <= k <= m && Answers(run[k], run[m].clients[c].cached, run[m].clients[c].id, hit)
       case Reload(since) => Now(run[i]) <= since
       case _ => true
  }

  lemma CacheStepOK<V(!new)>(run: seq<State<V>>, i: nat, m: nat, c: nat, hit: bool)
    requires IsRun(run) && m + 1 < |run| && CacheSees(run, i, m, c, hit) && !run[m].clients[c].now.Quiet?
    requires c < |run[m + 1].clients| && run[m + 1].clients[c].Cache?
    requires hit ==> !run[m].clients[c].now.Reload?
    ensures CacheSees(run, i, m + 1, c, hit)
  {
    var s, s' := run[m], run[m + 1];
    var a := StepOf(run, m);
    HistGrows(run, i, m);
    assert ClientOK(s, c);
    if s'.clients[c] == s.clients[c] {
      if s.clients[c].now.Loaded? {
        var k :| i <= k <= m && Answers(run[k], s.clients[c].cached, s.clients[c].id, hit);
        assert i <= k <= m + 1 && Answers(run[k], s'.clients[c].cached, s'.clients[c].id, hit);
      }
    } else if s'.clients[c].now.Loaded? {
      assert a.Run? && a.c == c;
      if s.clients[c].now.Peek? {
        assert Answers(run[m], s'.clients[c].cached, s'.clients[c].id, hit);
      } else {
        ReloadAnswers(run, i, m, c, a.v);
      }
    }
  }

  lemma ReloadAnswers<V(!new)>(run: seq<State<V>>, i: nat, m: nat, c: nat, v: nat)
    requires IsRun(run) && i <= m && m + 1 < |run| && c < |run[m].clients| && run[m].clients[c].Cache? && run[m].clients[c].now.Reload?
    requires Now(run[i]) <= run[m].clients[c].now.since && Ends(run[m], run[m].clients[c], v)
    requires run[m + 1] == CacheAccess(run[m], c, v)
    ensures CacheSees(run, i, m + 1, c, false)
  {
    var k := VersionWasCurrent(run, i, m, v);
    NewerObject(run, k, m, 0);
    assert Answers(run[k], run[m + 1].clients[c].cached, run[m + 1].clients[c].id, false);
  }

  /** From `i` to `j` client `c` is in `Cache::load`, and then has its answer. */
  ghost predicate CacheRuns<V>(run: seq<State<V>>, i: nat, j: nat, c: nat) {
    && i <= j < |run|
    && (forall m :: i <= m <= j ==> c < |run[m].clients| && run[m].clients[c].Cache? && !run[m].clients[c].now.Quiet?)
    && run[i].clients[c].now.Peek? && run[j].clients[c].now.Loaded?
  }

  predicate InCacheLoad(cl: Client) { cl.Cache? && (cl.now.Peek? || cl.now.Reload?) }

  /** The user calls `Cache::load` after `i`, and it has returned at `j`. */
  ghost predicate CachedLoad<V>(run: seq<State<V>>, i: nat, j: nat, c: nat) {
    && Begins(run, i, CacheLoad(c)) && i < j < |run|
    && (forall m :: i < m < j ==> c < |run[m].clients| && InCacheLoad(run[m].clients[c]))
    && c < |run[j].clients| && run[j].clients[c].Cache? && !InCacheLoad(run[j].clients[c])
  }

  /** The step in which a cached load gets its answer. */
  lemma CacheAnswers<V(!new)>(run: seq<State<V>>, m: nat, c: nat)
    requires IsRun(run) && m + 1 < |run| && c < |run[m].clients| && InCacheLoad(run[m].clients[c])
    requires c < |run[m + 1].clients| && run[m + 1].clients[c].Cache?
    ensures !run[m + 1].clients[c].now.Quiet?
    ensures run[m].clients[c].now.Peek? ==>
      run[m + 1].clients[c] == run[m].clients[c] ||
      run[m + 1].clients[c] == run[m].clients[c].(now := if run[m].cell == run[m].clients[c].cached then Loaded else Reload(Now(run[m])))
  {
    var a := StepOf(run, m);
  }

  lemma CacheOpens<V(!new)>(run: seq<State<V>>, i: nat, j: nat, c: nat)
    requires IsRun(run) && CachedLoad(run, i, j, c)
    ensures CacheRuns(run, i + 1, j, c)
  {
    assert run[i + 1].clients[c].now.Peek?;
    CacheAnswers(run, j - 1, c);
  }

  /** The call did not go to the storage. */
  ghost predicate WasHit<V>(run: seq<State<V>>, i: nat, j: nat, c: nat) {
    forall m :: i <= m <= j < |run| && c < |run[m].clients| && run[m].clients[c].Cache? ==> !run[m].clients[c].now.Reload?
  }

  lemma {:induction false} CacheLoadSoFar<V(!new)>(run: seq<State<V>>, i: nat, m: nat, j: nat, c: nat)
    requires IsRun(run) && CacheRuns(run, i, j, c) && i <= m <= j
    ensures CacheSees(run, i, m, c, WasHit(run, i, j, c))
    decreases m
  {
    if i < m {
      CacheLoadSoFar(run, i, m - 1, j, c);
      CacheStepOK(run, i, m - 1, c, WasHit(run, i, j, c));
    }
  }

  /** The object that client `c` has was in the cell during the call. */
  ghost predicate WasCurrent<V>(run: seq<State<V>>, i: nat, j: nat, p: Ptr, id: nat) {
    exists k :: i <= k <= j < |run| && run[k].cell == p && Current(run[k]) == id
  }

  /** A cached load returns a pointer that the cell held during the call, and it means the same object still.
      The object itself was in the cell during the call whenever the cache was hit, because the cached
      reference keeps its address from being reused; and always, if the strategy is exact. */
  lemma CachedLoadIsCurrent<V(!new)>(run: seq<State<V>>, i: nat, j: nat, c: nat)
    requires IsRun(run) && CachedLoad(run, i, j, c)
    ensures var cl := run[j].clients[c];
      && Means(run[j], cl.cached, cl.id)
      && (exists k :: i < k <= j && run[k].cell == cl.cached)
      && (WasHit(run, i + 1, j, c) || run[0].exact ==> WasCurrent(run, i + 1, j, cl.cached, cl.id))
  {
    CacheOpens(run, i, j, c);
    var cl := run[j].clients[c];
    CacheLoadSoFar(run, i + 1, j, j, c);
    RunOK(run, j);
    assert ClientOK(run[j], c);
    var k :| i + 1 <= k <= j && Answers(run[k], cl.cached, cl.id, WasHit(run, i + 1, j, c));
    NewerObject(run, 0, k, 0);
  }

  /** With any strategy: the object was in the cell during the call if and only if the cell held its address
      at a moment of the call since which no object has been created there. */
  lemma CachedObjectIff<V(!new)>(run: seq<State<V>>, i: nat, j: nat, c: nat)
    requires IsRun(run) && CachedLoad(run, i, j, c)
    ensures var cl := run[j].clients[c];
      WasCurrent(run, i + 1, j, cl.cached, cl.id) <==>
      exists k :: i < k <= j && run[k].cell == cl.cached && NoneAppears(run, k, j, cl.cached)
  {
    var cl := run[j].clients[c];
    RunOK(run, j);
    assert ClientOK(run[j], c);
    forall k | i < k <= j && run[k].cell == cl.cached
      ensures Current(run[k]) == cl.id <==> NoneAppears(run, k, j, cl.cached)
    {
      RunOK(run, k);
      SameObjectIff(run, k, j, cl.cached);
    }
  }

  lemma {:induction false} HitSoFar<V(!new)>(run: seq<State<V>>, i: nat, m: nat, j: nat, c: nat)
    requires IsRun(run) && CachedLoad(run, i, j, c) && i < m <= j
    requires forall k :: i < k <= j ==> run[k].cell == run[i].clients[c].cached
    ensures c < |run[m].clients| && run[m].clients[c].Cache? && !run[m].clients[c].now.Reload?
    ensures run[m].clients[c].cached == run[i].clients[c].cached && run[m].clients[c].id == run[i].clients[c].id
    decreases m
  {
    if m > i + 1 {
      HitSoFar(run, i, m - 1, j, c);
      CacheAnswers(run, m - 1, c);
    }
  }

  /** While the cell holds the cached pointer, a cached load returns what it had, and does not go to the
      storage. */
  lemma UnchangedCellIsHit<V(!new)>(run: seq<State<V>>, i: nat, j: nat, c: nat)
    requires IsRun(run) && CachedLoad(run, i, j, c)
    requires forall k :: i < k <= j ==> run[k].cell == run[i].clients[c].cached
    ensures WasHit(run, i + 1, j, c)
    ensures run[j].clients[c].cached == run[i].clients[c].cached && run[j].clients[c].id == run[i].clients[c].id
  {
    forall m | i < m <= j ensures c < |run[m].clients| && run[m].clients[c].Cache? && !run[m].clients[c].now.Reload? {
      HitSoFar(run, i, m, j, c);
    }
    HitSoFar(run, i, j, j, c);
  }

  /** `Cache::new`: the new cache holds what the cell held at some moment of the call. */
  lemma NewCacheIsCurrent<V(!new)>(run: seq<State<V>>, i: nat, j: nat, c: nat)
    requires IsRun(run) && Begins(run, i, NewCache(c)) && i < j < |run|
    requires forall m :: i < m < j ==> c < |run[m].clients| && run[m].clients[c].Filling?
    requires c < |run[j].clients| && !run[j].clients[c].Filling?
    ensures run[j].clients[c].Cache?
    ensures var cl := run[j].clients[c];
      && Means(run[j], cl.cached, cl.id)
      && (exists k :: i <= k <= j && run[k].cell == cl.cached)
      && (run[0].exact ==> WasCurrent(run, i, j, cl.cached, cl.id))
  {
    FillingSince(run, i, j, j - 1, c);
    var a := StepOf(run, j - 1);
    assert a.Run? && a.c == c;
    var k := VersionWasCurrent(run, i, j - 1, a.v);
    NewerObject(run, 0, k, 0);
    NewerObject(run, k, j - 1, 0);
  }

  lemma {:induction false} FillingSince<V(!new)>(run: seq<State<V>>, i: nat, j: nat, m: nat, c: nat)
    requires IsRun(run) && Begins(run, i, NewCache(c)) && i < m < j < |run|
    requires forall x :: i < x < j ==> c < |run[x].clients| && run[x].clients[c].Filling?
    ensures run[m].clients[c] == Filling(Now(run[i]))
    decreases m
  {
    if m > i + 1 {
      FillingSince(run, i, j, m - 1, c);
      var a := StepOf(run, m - 1);
    }
  }
}
