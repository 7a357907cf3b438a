/** The hybrid strategy refines the atomic cell. */
module Refinement {
  import AtomicCell
  import opened Protocol
  import opened Steps
  import opened Invariant
  import opened Runs
  import opened Writes
  import opened Calls

  /** At moment `k` the atomic cell would give `answer`, and what it would store is stored there. */
  ghost predicate EffectAt(run: seq<State>, k: nat, c: nat, req: AtomicCell.Request, answer: Ptr) {
    && k < |run| && IsLive(run[k], c)
    && var v := run[k].cells[c].val;
    && answer == AtomicCell.Answer(req, v)
    && (AtomicCell.Stores(req, v) ==>
          && k + 1 < |run| && IsLive(run[k + 1], c)
          && run[k + 1].cells[c].val == AtomicCell.After(req, v)
          && run[k + 1].cells[c].hist == run[k].cells[c].hist + [AtomicCell.After(req, v)])
  }

  /** From the user's `load` or `load_full` to the guard or reference that the user gets. */
  lemma LoadRefines(run: seq<State>, i: nat, j: nat, t: nat, c: nat, full: bool) returns (k: nat, answer: Ptr)
    requires IsRun(run) && LoadCalled(run, i, j, t, c, full)
    ensures i < k < j && EffectAt(run, k, c, AtomicCell.Load, answer)
    ensures UserGets(run[j - 1], run[j], t, full, answer)
  {
    k, answer := LoadCall(run, i, j, t, c, full);
  }

  /** From the user's `swap` to the reference that the user gets. */
  lemma SwapRefines(run: seq<State>, i: nat, j: nat, t: nat, c: nat, nv: Ptr) returns (k: nat, answer: Ptr)
    requires IsRun(run) && SwapRuns(run, i, j, t, c, nv)
    ensures i < k < j && EffectAt(run, k, c, AtomicCell.Swap(nv), answer)
    ensures HandsOut(run[j - 1], run[j], t, answer)
  {
    k := SwapIsAtomic(run, i, j, t, c, nv);
    answer := run[k].cells[c].val;
  }

  /** From the user's `compare_and_swap` to the guard that the user gets. */
  lemma CasRefines(run: seq<State>, i: nat, j: nat, t: nat, c: nat, cur: Ptr, nv: Ptr) returns (g: nat, k: nat)
    requires IsRun(run) && CasRuns(run, i, j, t, c, cur, nv)
    ensures Returns(run[j - 1], run[j], t, g)
    ensures i < k < j && EffectAt(run, k, c, AtomicCell.Cas(cur, nv), run[j].guards[g].ptr)
    ensures StoreCount(run, i, j, t, c, cur, nv) == if AtomicCell.Stores(AtomicCell.Cas(cur, nv), run[j].guards[g].ptr) then 1 else 0
  {
    g, k := CasIsAtomic(run, i, j, t, c, cur, nv);
  }
}
