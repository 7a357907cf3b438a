/** Linearizability, assembled: one sequence of operations that an atomic cell would have run. */
module Linear {
  import AC = AtomicCell
  import opened Protocol
  import opened Steps
  import opened Invariant
  import opened Moves
  import opened Runs
  import opened Writes
  import opened Calls
  import opened Refinement

  // ---------------------------------------------------------------------------------------------
  // The atomic cell

  datatype Event = Event(t: nat, req: AC.Request, answer: Ptr)

  /** An atomic cell that holds `v` gives these answers in turn, and then holds `w`. */
  predicate Legal(log: seq<Event>, v: Ptr, w: Ptr) {
    if |log| == 0 then v == w
    else log[0].answer == AC.Answer(log[0].req, v) && Legal(log[1..], AC.After(log[0].req, v), w)
  }

  lemma {:induction false} LegalAppend(a: seq<Event>, b: seq<Event>, v: Ptr, w: Ptr, x: Ptr)
    requires Legal(a, v, w) && Legal(b, w, x)
    ensures Legal(a + b, v, x)
  {
    if |a| == 0 {
      assert a + b == b;
    } else {
      assert (a + b)[1..] == a[1..] + b;
      LegalAppend(a[1..], b, AC.After(a[0].req, v), w, x);
    }
  }

  // ---------------------------------------------------------------------------------------------
  // Completed operations

  /** An operation that the user began on thread `t` after `i`, and what the user had got of it at `j`. */
  datatype Done =
    | Loaded(t: nat, i: nat, j: nat, full: bool, p: Ptr)
    | Swapped(t: nat, i: nat, j: nat, nv: Ptr, out: Ptr)
    | Compared(t: nat, i: nat, j: nat, cur: Ptr, nv: Ptr, g: nat)

  ghost predicate Completed(run: seq<State>, c: nat, d: Done) {
    match d
    case Loaded(t, i, j, full, p) => LoadCalled(run, i, j, t, c, full) && UserGets(run[j - 1], run[j], t, full, p)
    case Swapped(t, i, j, nv, out) => SwapRuns(run, i, j, t, c, nv) && HandsOut(run[j - 1], run[j], t, out)
    case Compared(t, i, j, cur, nv, g) => CasRuns(run, i, j, t, c, cur, nv) && Returns(run[j - 1], run[j], t, g)
  }

  function ReqOf(d: Done): AC.Request {
    match d
    case Loaded(_, _, _, _, _) => AC.Load
    case Swapped(_, _, _, nv, _) => AC.Swap(nv)
    case Compared(_, _, _, cur, nv, _) => AC.Cas(cur, nv)
  }

  ghost function EventOf(run: seq<State>, c: nat, d: Done): Event
    requires Completed(run, c, d)
  {
    Event(d.t, ReqOf(d),
          match d
          case Loaded(_, _, _, _, p) => p
          case Swapped(_, _, _, _, out) => out
          case Compared(_, _, j, _, _, g) => run[j].guards[g].ptr)
  }

  // ---------------------------------------------------------------------------------------------
  // Stores

  /** In the step after `k` thread `t` stores into cell `c`, running `req`. */
  ghost predicate Enters(run: seq<State>, k: nat, c: nat, t: nat, req: AC.Request) {
    && k + 1 < |run|
    && match req
       case Load => false
       case Swap(nv) => c < |run[k].cells| && Exchanges(run[k], run[k + 1], t, c, nv, run[k].cells[c].val)
       case Cas(cur, nv) => StoresOver(run[k], run[k + 1], t, c, cur, nv)
  }

  /** The cell gains a version in the step after `k`. */
  predicate Gains(run: seq<State>, k: nat, c: nat) {
    k + 1 < |run| && c < |run[k].cells| && c < |run[k + 1].cells| && run[k].cells[c].hist != run[k + 1].cells[c].hist
  }

  lemma GainIsEntered(run: seq<State>, k: nat, c: nat)
    requires IsRun(run) && Gains(run, k, c)
    ensures exists t, req :: Enters(run, k, c, t, req)
  {
    var t := WritesAreAtomic(run, k, c);
    var op := run[k].threads[t].op;
    if op.Swapping? { assert Enters(run, k, c, t, AC.Swap(op.nv)); } else { assert Enters(run, k, c, t, AC.Cas(op.cur, op.nv)); }
  }

  /** Only one thread stores at a time, and by one request. */
  lemma EnteredOnce(run: seq<State>, k: nat, c: nat, t: nat, req: AC.Request, u: nat, req': AC.Request)
    requires IsRun(run) && Enters(run, k, c, t, req) && Enters(run, k, c, u, req')
    ensures t == u && req == req'
  {
    var a := StepOf(run, k);
    if Actor(a) != t { Others(run[k], a, t); }
    if Actor(a) != u { Others(run[k], a, u); }
  }

  /** What the step after `k` does to the cell. */
  ghost function Store(run: seq<State>, k: nat, c: nat): (log: seq<Event>)
    requires IsRun(run) && k < |run| && c < |run[k].cells|
    ensures forall t, req :: Enters(run, k, c, t, req) ==> log == [Event(t, req, run[k].cells[c].val)]
  {
    if Gains(run, k, c) then
      GainIsEntered(run, k, c);
      var t, req :| Enters(run, k, c, t, req);
      assert forall u, req' :: Enters(run, k, c, u, req') ==> u == t && req' == req by {
        forall u, req' | Enters(run, k, c, u, req') ensures u == t && req' == req { EnteredOnce(run, k, c, t, req, u, req'); }
      }
      [Event(t, req, run[k].cells[c].val)]
    else []
  }

  lemma StoreIsLegal(run: seq<State>, k: nat, c: nat)
    requires IsRun(run) && k + 1 < |run| && c < |run[k].cells|
    ensures c < |run[k + 1].cells| && Legal(Store(run, k, c), run[k].cells[c].val, run[k + 1].cells[c].val)
  {
    StepGrows(run, k, c);
    if Gains(run, k, c) {
      GainIsEntered(run, k, c);
      var t, req :| Enters(run, k, c, t, req);
      var log := Store(run, k, c);
      assert log == [Event(t, req, run[k].cells[c].val)] && log[1..] == [];
    }
  }

  // ---------------------------------------------------------------------------------------------
  // Moments

  /** An event, and the moment at which it takes effect. */
  datatype Placed = Placed(k: nat, e: Event)

  /** At that moment the cell would answer so, and what is to be stored is stored. */
  ghost predicate Fits(run: seq<State>, c: nat, p: Placed) {
    && p.k < |run| && c < |run[p.k].cells|
    && p.e.answer == AC.Answer(p.e.req, run[p.k].cells[c].val)
    && (AC.Stores(p.e.req, run[p.k].cells[c].val) ==> Enters(run, p.k, c, p.e.t, p.e.req))
  }

  lemma IncIsOne(m: multiset<Ptr>, p: Ptr, q: Ptr)
    requires Inc(m, p) == Inc(m, q)
    ensures p == q
  {
    assert Inc(m, p)[p] == m[p] + 1;
  }

  lemma SwapMoment(run: seq<State>, c: nat, d: Done) returns (k: nat)
    requires IsRun(run) && Completed(run, c, d) && d.Swapped?
    ensures d.i <= k <= d.j && Fits(run, c, Placed(k, EventOf(run, c, d)))
  {
    k := SwapIsAtomic(run, d.i, d.j, d.t, c, d.nv);
    IncIsOne(run[d.j - 1].handles, d.out, run[k].cells[c].val);
    assert Enters(run, k, c, d.t, AC.Swap(d.nv));
  }

  lemma CasMoment(run: seq<State>, c: nat, d: Done) returns (k: nat)
    requires IsRun(run) && Completed(run, c, d) && d.Compared?
    ensures d.i <= k <= d.j && Fits(run, c, Placed(k, EventOf(run, c, d)))
  {
    var g;
    g, k := CasIsAtomic(run, d.i, d.j, d.t, c, d.cur, d.nv);
    assert g == d.g;
  }

  /** Every completed operation takes effect at a moment of its call. */
  lemma MomentOf(run: seq<State>, c: nat, d: Done) returns (k: nat)
    requires IsRun(run) && Completed(run, c, d)
    ensures d.i <= k <= d.j && Fits(run, c, Placed(k, EventOf(run, c, d)))
  {
    match d
    case Loaded(t, i, j, full, _) => var answer; k, answer := LoadRefines(run, i, j, t, c, full);
    case Swapped(_, _, _, _, _) => k := SwapMoment(run, c, d);
    case Compared(_, _, _, _, _, _) => k := CasMoment(run, c, d);
  }

  /** The event of `d` is placed inside its call. */
  ghost predicate Within(run: seq<State>, c: nat, d: Done, p: Placed)
    requires Completed(run, c, d)
  {
    d.i <= p.k <= d.j && p.e == EventOf(run, c, d)
  }

  lemma {:induction false} Moments(run: seq<State>, c: nat, ds: seq<Done>) returns (ps: seq<Placed>)
    requires IsRun(run) && forall x :: 0 <= x < |ds| ==> Completed(run, c, ds[x])
    ensures |ps| == |ds| && forall x :: 0 <= x < |ds| ==> Within(run, c, ds[x], ps[x]) && Fits(run, c, ps[x])
  {
    ps := [];
    if |ds| > 0 {
      var n := |ds| - 1;
      ps := Moments(run, c, ds[..n]);
      var k := MomentOf(run, c, ds[n]);
      ps := ps + [Placed(k, EventOf(run, c, ds[n]))];
    }
  }

  // ---------------------------------------------------------------------------------------------
  // The sequence

  predicate IsRead(run: seq<State>, c: nat, p: Placed, k: nat)
    requires k < |run| && c < |run[k].cells|
  {
    p.k == k && !AC.Stores(p.e.req, run[k].cells[c].val)
  }

  /** The events that are placed at `k` and do not store. */
  function Reads(run: seq<State>, c: nat, ps: seq<Placed>, k: nat): seq<Event>
    requires k < |run| && c < |run[k].cells|
  {
    if |ps| == 0 then []
    else
      var n := |ps| - 1;
      Reads(run, c, ps[..n], k) + if IsRead(run, c, ps[n], k) then [ps[n].e] else []
  }

  lemma {:induction false} ReadsAreLegal(run: seq<State>, c: nat, ps: seq<Placed>, k: nat)
    requires k < |run| && c < |run[k].cells| && forall x :: 0 <= x < |ps| ==> Fits(run, c, ps[x])
    ensures Legal(Reads(run, c, ps, k), run[k].cells[c].val, run[k].cells[c].val)
    decreases |ps|
  {
    if |ps| > 0 {
      var n := |ps| - 1;
      var v := run[k].cells[c].val;
      ReadsAreLegal(run, c, ps[..n], k);
      if IsRead(run, c, ps[n], k) {
        assert Fits(run, c, ps[n]);
        OneIsLegal(ps[n].e, v, v);
        LegalAppend(Reads(run, c, ps[..n], k), [ps[n].e], v, v, v);
      } else {
        assert Reads(run, c, ps, k) == Reads(run, c, ps[..n], k);
      }
    }
  }

  lemma OneIsLegal(e: Event, v: Ptr, w: Ptr)
    requires e.answer == AC.Answer(e.req, v) && w == AC.After(e.req, v)
    ensures Legal([e], v, w)
  {
    assert [e][1..] == [];
  }

  lemma {:induction false} ReadIsIn(run: seq<State>, c: nat, ps: seq<Placed>, x: nat)
    requires x < |ps| && ps[x].k < |run| && c < |run[ps[x].k].cells| && IsRead(run, c, ps[x], ps[x].k)
    ensures ps[x].e in Reads(run, c, ps, ps[x].k)
    decreases |ps|
  {
    if x < |ps| - 1 { ReadIsIn(run, c, ps[..|ps| - 1], x); }
  }

  /** What happens at moment `k`: first the reads, then the store. */
  ghost function Block(run: seq<State>, c: nat, ps: seq<Placed>, k: nat): seq<Event>
    requires IsRun(run)
  {
    if k < |run| && c < |run[k].cells| then Reads(run, c, ps, k) + Store(run, k, c) else []
  }

  /** All events from moment `b` on, before moment `n`, in the order of their moments. */
  ghost function Log(run: seq<State>, c: nat, ps: seq<Placed>, b: nat, n: nat): seq<Event>
    requires IsRun(run) && b <= n
    decreases n - b
  {
    if b == n then [] else Log(run, c, ps, b, n - 1) + Block(run, c, ps, n - 1)
  }

  lemma BlockIsLegal(run: seq<State>, c: nat, ps: seq<Placed>, k: nat)
    requires IsRun(run) && k + 1 < |run| && c < |run[k].cells| && forall x :: 0 <= x < |ps| ==> Fits(run, c, ps[x])
    ensures c < |run[k + 1].cells| && Legal(Block(run, c, ps, k), run[k].cells[c].val, run[k + 1].cells[c].val)
  {
    var v := run[k].cells[c].val;
    ReadsAreLegal(run, c, ps, k);
    StoreIsLegal(run, k, c);
    LegalAppend(Reads(run, c, ps, k), Store(run, k, c), v, v, run[k + 1].cells[c].val);
  }

  lemma {:induction false} LogIsLegal(run: seq<State>, c: nat, ps: seq<Placed>, b: nat, e: nat)
    requires IsRun(run) && b <= e < |run| && c < |run[b].cells| && forall x :: 0 <= x < |ps| ==> Fits(run, c, ps[x])
    ensures c < |run[e].cells| && Legal(Log(run, c, ps, b, e), run[b].cells[c].val, run[e].cells[c].val)
    decreases e - b
  {
    if b < e {
      LogIsLegal(run, c, ps, b, e - 1);
      BlockIsLegal(run, c, ps, e - 1);
      LegalAppend(Log(run, c, ps, b, e - 1), Block(run, c, ps, e - 1), run[b].cells[c].val, run[e - 1].cells[c].val, run[e].cells[c].val);
    }
  }

  /** An event is in the block of its moment. */
  lemma InBlock(run: seq<State>, c: nat, ps: seq<Placed>, x: nat)
    requires IsRun(run) && x < |ps| && Fits(run, c, ps[x])
    ensures ps[x].e in Block(run, c, ps, ps[x].k)
  {
    var p := ps[x];
    if AC.Stores(p.e.req, run[p.k].cells[c].val) {
      assert Store(run, p.k, c) == [p.e];
    } else {
      ReadIsIn(run, c, ps, x);
    }
  }

  /** The whole sequence ends with the reads at the last moment. */
  lemma WholeLogIsLegal(run: seq<State>, c: nat, ps: seq<Placed>, b: nat)
    requires IsRun(run) && b < |run| && c < |run[b].cells| && forall x :: 0 <= x < |ps| ==> Fits(run, c, ps[x])
    ensures var e := |run| - 1;
      c < |run[e].cells| && Legal(Log(run, c, ps, b, |run|), run[b].cells[c].val, run[e].cells[c].val)
  {
    var e := |run| - 1;
    LogIsLegal(run, c, ps, b, e);
    ReadsAreLegal(run, c, ps, e);
    var w := run[e].cells[c].val;
    assert Block(run, c, ps, e) == Reads(run, c, ps, e);
    LegalAppend(Log(run, c, ps, b, e), Block(run, c, ps, e), run[b].cells[c].val, w, w);
  }

  /** For every run, every cell and all operations on it that have returned: there is one sequence of events,
      ordered by moments, that an atomic cell with the same initial value would produce with all its answers.
      Each operation has its event at a moment of its own call; the stores of operations that have not
      returned yet are in the sequence too, and nothing else is. */
  lemma Linearizable(run: seq<State>, c: nat, ds: seq<Done>, b: nat) returns (ps: seq<Placed>)
    requires IsRun(run) && b < |run| && c < |run[b].cells|
    requires forall x :: 0 <= x < |ds| ==> Completed(run, c, ds[x])
    ensures |ps| == |ds| && forall x :: 0 <= x < |ds| ==> Within(run, c, ds[x], ps[x])
    ensures forall x :: 0 <= x < |ds| ==> ps[x].e in Block(run, c, ps, ps[x].k)
    ensures var e := |run| - 1;
      c < |run[e].cells| && Legal(Log(run, c, ps, b, |run|), run[b].cells[c].val, run[e].cells[c].val)
  {
    ps := Moments(run, c, ds);
    forall x | 0 <= x < |ds| ensures ps[x].e in Block(run, c, ps, ps[x].k) { InBlock(run, c, ps, x); }
    WholeLogIsLegal(run, c, ps, b);
  }
}
