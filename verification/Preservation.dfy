/** The invariant holds in every reachable state. */
module Preservation {
  import opened Protocol
  import opened Steps
  import opened Invariant
  import opened Moves
  import opened CallProofs
  import opened SweepProofs
  import opened HelpProofs
  import opened OpProofs
  import opened UserProofs

  lemma InitOK(s: State)
    requires Init(s)
    ensures Inv(s)
  {
  }

  lemma CallStepOK(s: State, t: nat)
    requires Inv(s) && Ready(s, t) && InCall(s.threads[t].call)
    ensures Inv(CallStep(s, t))
  {
    match s.threads[t].call
    case LStart(_) => LStartOK(s, t);
    case LScan(_, _, _) => LScanOK(s, t);
    case LPut(_, _, _) => LPutOK(s, t);
    case LConfirm(_, _, _) => LConfirmOK(s, t);
    case LPay(_, _, g) => if Owing(s, g) { LPayHit(s, t); } else { LPayMiss(s, t); }
    case FAddr(_) => FAddrOK(s, t);
    case FCtrl(_) => FCtrlOK(s, t);
    case FRead(_, _) => FReadOK(s, t);
    case FSlot(_, _, _) => FSlotOK(s, t);
    case FConf(_, _, _, _) => FConfOK(s, t);
    case FEnv(_, _, _, _, _) => FEnvOK(s, t);
    case FOffer(_, _, _, _, _) => FOfferOK(s, t);
    case FPay(_, _, g, _) => if Owing(s, g) { FPayHit(s, t); } else { FPayMiss(s, t); }
    case FDec(_, _, _, _) => FDecOK(s, t);
    case InInc(_, _, _) => InIncOK(s, t);
    case InPay(_, _, g) => if Owing(s, g) { InPayHit(s, t); } else { InPayMiss(s, t); }
    case InDec(_, _, _) => InDecOK(s, t);
    case DrPay(g) => if Owing(s, g) { DrPayHit(s, t); } else { DrPayMiss(s, t); }
    case DrDec(_) => DrDecOK(s, t);
  }

  lemma SweepStepOK(s: State, t: nat)
    requires Inv(s) && Ready(s, t) && s.threads[t].op.Sweeping?
    requires if s.threads[t].op.pc.HLoad? then s.threads[t].call.Done? else s.threads[t].call.NoCall?
    ensures Inv(SweepStep(s, t))
  {
    match s.threads[t].op.pc
    case Prepay => PrepayOK(s, t);
    case Head => HeadOK(s, t);
    case Reserve(_) => ReserveOK(s, t);
    case HRead(_) => HReadOK(s, t);
    case HAddr(_) => HAddrOK(s, t);
    case HRecheck(_) => HRecheckOK(s, t);
    case HLoad(_) => HLoadOK(s, t);
    case HTheir(_, _) => HTheirOK(s, t);
    case HMine(_, _, _) => HMineOK(s, t);
    case HWrite(_, _, _, _) => HWriteOK(s, t);
    case HCas(o, _, _, _) => if SameGen(s.nodes[o.n].control, o.gen) { HCasHit(s, t); } else { HCasMiss(s, t); }
    case HStore(_, _) => HStoreOK(s, t);
    case HDrop(_, _, _) => HDropOK(s, t);
    case Pay(n, i) =>
      assert NodeShape(s, n);
      if Hits(s, n, i, s.threads[t].op.job.out) { PayHit(s, t); } else { PayMiss(s, t); }
    case PayInc(_, _) => PayIncOK(s, t);
    case Release(_) => ReleaseOK(s, t);
    case Finish => FinishOK(s, t);
    case Swept => SweptOK(s, t);
  }

  lemma OpStepOK(s: State, t: nat, fail: bool)
    requires Inv(s) && Ready(s, t) && Busying(s, t) && !InCall(s.threads[t].call) && ThreadOK(s, t)
    ensures Inv(OpStep(s, t, fail))
  {
    match s.threads[t].op
    case GHead => GHeadOK(s, t);
    case GCheck(_) => GCheckOK(s, t);
    case GClaim(_) => GClaimOK(s, t);
    case GTop => GTopOK(s, t);
    case GPush(_) => GPushOK(s, t, fail);
    case XReserve => XReserveOK(s, t);
    case XSwap => XSwapOK(s, t);
    case XRelease(_) => XReleaseOK(s, t);
    case Loading => if s.threads[t].call.ask.full { LoadedFull(s, t); } else { LoadedGuard(s, t); }
    case Dropping => DroppedOK(s, t);
    case Swapping(_, _) => SwapOK(s, t);
    case Sweeping(_, _) => SweepStepOK(s, t);
    case CLoad(_, _, _) => CLoadOK(s, t);
    case CTry(_, _, _, _) => CTryOK(s, t, fail);
    case CRetry(_, _, _) => CRetryOK(s, t);
    case CKeep(_, _, _) => CKeepOK(s, t);
  }

  /** Every action preserves the invariant. */
  lemma ActionOK(s: State, a: Action)
    requires Inv(s) && Enabled(s, a)
    ensures Inv(Apply(s, a))
  {
    match a
    case Run(t, fail) =>
      Unfold(s, t);
      if InCall(s.threads[t].call) { CallStepOK(s, t); } else { OpStepOK(s, t, fail); }
    case BeginLoad(t, c, full) => BeginLoadOK(s, t, c, full);
    case BeginDrop(t, g) => BeginDropOK(s, t, g);
    case BeginInto(t, g) => if s.guards[g].debt.At? { BeginIntoDebt(s, t, g); } else { BeginIntoOwned(s, t, g); }
    case BeginSwap(t, c, p) => BeginSwapOK(s, t, c, p);
    case BeginCas(t, c, cur, p) => BeginCasOK(s, t, c, cur, p);
    case BeginTake(t, c, inner) => BeginTakeOK(s, t, c, inner);
    case BeginGet(t) => BeginGetOK(s, t);
    case BeginExit(t) => BeginExitOK(s, t);
    case Spawn => SpawnOK(s);
    case NewObject(p) => CountOK(s, Apply(s, a));
    case NewCell(p) => NewCellOK(s, p);
    case CloneHandle(p) => CountOK(s, Apply(s, a));
    case DropHandle(p) => HandleAlive(s, p); CountOK(s, Apply(s, a));
    case CloneGuard(g) => CountOK(s, Apply(s, a));
  }

  lemma NextOK(s: State, s': State)
    requires Inv(s) && Next(s, s')
    ensures Inv(s')
  {
    var a :| Enabled(s, a) && s' == Apply(s, a);
    ActionOK(s, a);
  }

  /** The invariant holds in every state of every run. */
  lemma {:induction false} RunOK(run: seq<State>, k: nat)
    requires IsRun(run) && k < |run|
    ensures Inv(run[k])
    decreases k
  {
    if k == 0 {
      InitOK(run[0]);
    } else {
      RunOK(run, k - 1);
      assert StepAt(run, k - 1);
      NextOK(run[k - 1], run[k]);
    }
  }
}
