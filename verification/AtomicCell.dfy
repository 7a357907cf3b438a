/** What an `ArcSwapAny` is meant to be: an atomic cell with three operations. */
module AtomicCell {
  type Ptr = nat

  datatype Request = Load | Swap(nv: Ptr) | Cas(cur: Ptr, nv: Ptr)

  /** What an operation returns when the cell holds `v`. */
  function Answer(req: Request, v: Ptr): Ptr { v }

  /** The operation stores its pointer when the cell holds `v`. */
  predicate Stores(req: Request, v: Ptr) {
    req.Swap? || (req.Cas? && v == req.cur)
  }

  /** What the cell holds afterwards. */
  function After(req: Request, v: Ptr): Ptr {
    if Stores(req, v) then req.nv else v
  }
}
