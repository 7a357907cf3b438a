/** The reference counts, spelled out over storages, handles, guards and debt slots. */
module Conservation {
  import opened Protocol
  import opened Steps
  import opened Invariant
  import opened Theorems

  predicate OnCell(s: State, c: nat, p: Ptr) { c < |s.cells| && s.cells[c].live && s.cells[c].val == p }

  predicate OnGuard(s: State, g: nat, p: Ptr) {
    g < |s.guards| && !s.guards[g].status.Gone? && s.guards[g].ptr == p
  }

  predicate OnSlot(s: State, n: nat, j: nat, p: Ptr) {
    n < |s.nodes| && j < |s.nodes[n].slots| && s.nodes[n].slots[j].Owes? && s.nodes[n].slots[j].ptr == p
  }

  /** The storages that hold `p`. */
  function CellsWith(s: State, p: Ptr): set<nat> { set c: nat | 0 <= c < |s.cells| && OnCell(s, c, p) }

  /** The guards on `p`, returned or still in a load. */
  function GuardsOn(s: State, p: Ptr): set<nat> { set g: nat | 0 <= g < |s.guards| && OnGuard(s, g, p) }

  /** The slots that owe `p`. */
  function DebtsOn(s: State, p: Ptr): set<(nat, nat)> {
    set n: nat, j: nat | 0 <= n < |s.nodes| && 0 <= j < SLOTS && OnSlot(s, n, j, p) :: (n, j)
  }

  /** References to `p` on the way: in the hands of running operations, or in an envelope. */
  function InTransit(s: State, p: Ptr): nat { SumThreads(s.threads, p) + SumNodes(s.nodes, p) }

  function PaidOn(s: State, p: Ptr): set<nat> { set g: nat | 0 <= g < |s.guards| && OnGuard(s, g, p) && s.guards[g].paid }

  function UnpaidOn(s: State, p: Ptr): set<nat> { set g: nat | 0 <= g < |s.guards| && OnGuard(s, g, p) && !s.guards[g].paid }

  lemma {:induction false} CountCells(s: State, k: nat, p: Ptr)
    requires k <= |s.cells|
    ensures SumCells(s.cells[..k], p) == |set c: nat | 0 <= c < k && OnCell(s, c, p)|
  {
    if k > 0 {
      CountCells(s, k - 1, p);
      assert s.cells[..k][..k - 1] == s.cells[..k - 1];
      var now, before := set c: nat | 0 <= c < k && OnCell(s, c, p), set c: nat | 0 <= c < k - 1 && OnCell(s, c, p);
      assert now == if OnCell(s, k - 1, p) then before + {k - 1} else before;
    }
  }

  lemma {:induction false} CountGuards(s: State, k: nat, p: Ptr)
    requires k <= |s.guards|
    ensures SumGuards(s.guards[..k], p) == |set g: nat | 0 <= g < k && OnGuard(s, g, p) && s.guards[g].paid|
  {
    if k > 0 {
      CountGuards(s, k - 1, p);
      assert s.guards[..k][..k - 1] == s.guards[..k - 1];
      var now := set g: nat | 0 <= g < k && OnGuard(s, g, p) && s.guards[g].paid;
      var before := set g: nat | 0 <= g < k - 1 && OnGuard(s, g, p) && s.guards[g].paid;
      assert now == if OnGuard(s, k - 1, p) && s.guards[k - 1].paid then before + {k - 1} else before;
    }
  }

  /** Slot `d` and guard `g` belong together. */
  ghost predicate Pair(s: State, d: (nat, nat), g: nat) {
    && d.0 < |s.nodes| && d.1 < |s.nodes[d.0].slots| && g < |s.guards|
    && s.nodes[d.0].slots[d.1].Owes? && s.nodes[d.0].slots[d.1].who == g && s.guards[g].debt == At(d.0, d.1)
  }

  lemma {:induction false} PairSize(s: State, ds: set<(nat, nat)>, gs: set<nat>)
    requires forall d :: d in ds ==> exists g :: g in gs && Pair(s, d, g)
    requires forall g :: g in gs ==> exists d :: d in ds && Pair(s, d, g)
    ensures |ds| == |gs|
    decreases |ds|
  {
    if ds == {} {
      assert gs == {};
    } else {
      var d :| d in ds;
      var g :| g in gs && Pair(s, d, g);
      var ds', gs' := ds - {d}, gs - {g};
      forall e | e in ds' ensures exists h :: h in gs' && Pair(s, e, h) {
        var h :| h in gs && Pair(s, e, h);
        assert h in gs' && Pair(s, e, h);
      }
      forall h | h in gs' ensures exists e :: e in ds' && Pair(s, e, h) {
        var e :| e in ds && Pair(s, e, h);
        assert e in ds' && Pair(s, e, h);
      }
      PairSize(s, ds', gs');
    }
  }

  /** Every unpaid guard has its own slot, and every occupied slot its own unpaid guard. */
  lemma DebtsMatchGuards(s: State, p: Ptr)
    requires Inv(s)
    ensures |DebtsOn(s, p)| == |UnpaidOn(s, p)|
  {
    forall d | d in DebtsOn(s, p) ensures exists g :: g in UnpaidOn(s, p) && Pair(s, d, g) {
      assert NodeOK(s, d.0) && SlotOK(s, d.0, d.1);
      var g := s.nodes[d.0].slots[d.1].who;
      assert OnGuard(s, g, p);
      assert g in UnpaidOn(s, p) && Pair(s, d, g);
    }
    forall g | g in UnpaidOn(s, p) ensures exists d :: d in DebtsOn(s, p) && Pair(s, d, g) {
      assert GuardOK(s, g);
      var d := (s.guards[g].debt.node, s.guards[g].debt.slot);
      assert OnSlot(s, d.0, d.1, p);
      assert d in DebtsOn(s, p) && Pair(s, d, g);
    }
    PairSize(s, DebtsOn(s, p), UnpaidOn(s, p));
  }

  /** Reference counts are conserved: what an object's count falls short of the references to it is
      exactly the number of debts on it. */
  lemma CountsAreConserved(s: State, p: Ptr)
    requires Reachable(s)
    ensures s.refs[p] + |DebtsOn(s, p)| == s.handles[p] + |CellsWith(s, p)| + |GuardsOn(s, p)| + InTransit(s, p)
  {
    ReachableInv(s);
    assert s.refs[p] == Owned(s, p);
    assert s.cells[..|s.cells|] == s.cells && s.guards[..|s.guards|] == s.guards;
    CountCells(s, |s.cells|, p);
    CountGuards(s, |s.guards|, p);
    DebtsMatchGuards(s, p);
    assert GuardsOn(s, p) == PaidOn(s, p) + UnpaidOn(s, p);
    assert PaidOn(s, p) !! UnpaidOn(s, p);
  }

  /** The guards on `p` whose debt is (or was) in slot `j` of node `n`. */
  function GuardsAt(s: State, n: nat, j: nat, p: Ptr): set<nat> {
    set g: nat | 0 <= g < |s.guards| && OnGuard(s, g, p) && s.guards[g].debt == At(n, j)
  }

  lemma UnpaidOwnsSlot(s: State, n: nat, j: nat, p: Ptr, g: nat)
    requires Inv(s) && n < |s.nodes| && j < SLOTS && g in GuardsAt(s, n, j, p) && g !in PaidOn(s, p)
    ensures OnSlot(s, n, j, p) && g == s.nodes[n].slots[j].who
  {
    assert NodeOK(s, n) && GuardOK(s, g);
  }

  lemma SlotHasGuard(s: State, n: nat, j: nat, p: Ptr)
    requires Inv(s) && n < |s.nodes| && j < SLOTS && OnSlot(s, n, j, p)
    ensures var w := s.nodes[n].slots[j].who; w in GuardsAt(s, n, j, p) && w !in PaidOn(s, p)
  {
    assert NodeOK(s, n) && SlotOK(s, n, j);
  }

  /** However many guards share a reused slot, the slot stands for one of them at most: all others
      own a reference. */
  lemma SharedSlot(s: State, n: nat, j: nat, p: Ptr)
    requires Reachable(s) && n < |s.nodes| && j < SLOTS
    ensures |GuardsAt(s, n, j, p) * PaidOn(s, p)| + (if OnSlot(s, n, j, p) then 1 else 0) == |GuardsAt(s, n, j, p)|
  {
    ReachableInv(s);
    assert NodeOK(s, n);
    var all := GuardsAt(s, n, j, p);
    var paid := all * PaidOn(s, p);
    forall g | g in all && g !in paid ensures OnSlot(s, n, j, p) && g == s.nodes[n].slots[j].who {
      UnpaidOwnsSlot(s, n, j, p, g);
    }
    if OnSlot(s, n, j, p) {
      var w := s.nodes[n].slots[j].who;
      SlotHasGuard(s, n, j, p);
      assert all == paid + {w};
    } else {
      assert all == paid;
    }
  }
}
