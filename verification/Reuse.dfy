/** A run in which a load returns an object that its cell never held. */
module Reuse {
  import opened Protocol
  import opened Steps
  import opened Invariant
  import opened Moves
  import opened Preservation
  import opened Runs
  import opened Objects
  import opened ObjectRuns
  import opened Witness

  const Asked := Ask(0, 0, false)

  /** Thread 0 is in the load that began after `i`. */
  ghost predicate InLoad(run: seq<State>, i: nat) {
    && i + 1 < |run| && |run[i].threads| > 0 && run[i].threads[0].call.NoCall?
    && |run[i + 1].threads| > 0 && run[i + 1].threads[0].call == LStart(Asked)
    && forall m :: i < m < |run| ==> |run[m].threads| > 0 && InCall(run[m].threads[0].call)
  }

  ghost predicate Extends(run: seq<State>, longer: seq<State>) {
    |run| <= |longer| && forall m :: 0 <= m < |run| ==> longer[m] == run[m]
  }

  /** A step of the other thread or of a user, while the load goes on. */
  lemma GoOn(run: seq<State>, i: nat, a: Action) returns (longer: seq<State>)
    requires IsRun(run) && InLoad(run, i) && (Shape(Last(run)) ==> Enabled(Last(run), a))
    requires Actor(a) != 0
    ensures Enabled(Last(run), a) && IsRun(longer) && Last(longer) == Apply(Last(run), a)
    ensures InLoad(longer, i) && Extends(run, longer)
  {
    longer := Go(run, a);
    RunOK(run, |run| - 1);
    Others(Last(run), a, 0);
  }

  /** Two threads and their nodes, with nothing to help. */
  ghost predicate Scene2(s: State, cells: seq<Cell>, reader: Thread, writer: Thread) {
    && s.cells == cells && |s.nodes| == 2 && |s.env| == 2 && s.head == 1 && s.threads == [reader, writer]
    && s.nodes[0].control == Control.Idle && s.nodes[0].next == -1 && |s.nodes[0].slots| == SLOTS
    && s.nodes[1].control == Control.Idle && s.nodes[1].next == 0 && AllFree(s.nodes[1]) && s.nextTxn == 0
  }

  const Putting := Worker(0, 0, Loading, LPut(Asked, 7, 0))
  const Cells1 := [Cell(true, 9, [7, 9])]

  function Writer(op: Op): Thread { Worker(1, 0, op, NoCall) }

  /** What the sweep of thread 1 leaves alone while it passes slots. */
  predicate SameBut(s: State, s': State) {
    s'.refs == s.refs && s'.handles == s.handles && s'.guards == s.guards && s'.nodes == s.nodes
  }

  /** The sweep passes the slots of node `n` from `x` on; none of them owes its pointer. */
  lemma {:induction false} Pass(run: seq<State>, i: nat, cells: seq<Cell>, reader: Thread, job: Job, n: nat, x: nat) returns (longer: seq<State>)
    requires IsRun(run) && InLoad(run, i) && n < 2 && x < SLOTS
    requires Scene2(Last(run), cells, reader, Writer(Sweeping(job, Pay(n, x)))) && AllFree(Last(run).nodes[n])
    ensures IsRun(longer) && InLoad(longer, i) && Extends(run, longer) && SameBut(Last(run), Last(longer))
    ensures Scene2(Last(longer), cells, reader, Writer(Sweeping(job, Release(n))))
    decreases SLOTS - x
  {
    longer := GoOn(run, i, Run(1, false));
    if x + 1 < SLOTS { longer := Pass(longer, i, cells, reader, job, n, x + 1); }
  }

  /** The sweep begins, and comes to the first slot of its own node. */
  lemma SweepBegins(run: seq<State>, i: nat, cells: seq<Cell>, reader: Thread, job: Job) returns (longer: seq<State>)
    requires IsRun(run) && InLoad(run, i) && job.cell < |cells|
    requires Scene2(Last(run), cells, reader, Writer(Sweeping(job, Prepay)))
    ensures IsRun(longer) && InLoad(longer, i) && Extends(run, longer)
    ensures Scene2(Last(longer), cells, reader, Writer(Sweeping(job, Pay(1, 0))))
    ensures var s, s' := Last(run), Last(longer);
      s'.refs == Inc(s.refs, job.out) && s'.handles == s.handles && s'.guards == s.guards && s'.nodes[0] == s.nodes[0]
  {
    longer := SweepHeads(run, i, cells, reader, job);
    longer := GoOn(longer, i, Run(1, false));
    longer := GoOn(longer, i, Run(1, false));
  }

  lemma SweepHeads(run: seq<State>, i: nat, cells: seq<Cell>, reader: Thread, job: Job) returns (longer: seq<State>)
    requires IsRun(run) && InLoad(run, i) && Scene2(Last(run), cells, reader, Writer(Sweeping(job, Prepay)))
    ensures IsRun(longer) && InLoad(longer, i) && Extends(run, longer)
    ensures Scene2(Last(longer), cells, reader, Writer(Sweeping(job, Reserve(1))))
    ensures var s, s' := Last(run), Last(longer);
      s'.refs == Inc(s.refs, job.out) && s'.handles == s.handles && s'.guards == s.guards && s'.nodes == s.nodes
  {
    longer := GoOn(run, i, Run(1, false));
    longer := GoOn(longer, i, Run(1, false));
  }

  /** From the end of node 1 to the first slot of node 0. */
  lemma SweepGoesOn(run: seq<State>, i: nat, cells: seq<Cell>, reader: Thread, job: Job) returns (longer: seq<State>)
    requires IsRun(run) && InLoad(run, i) && job.cell < |cells|
    requires Scene2(Last(run), cells, reader, Writer(Sweeping(job, Release(1))))
    ensures IsRun(longer) && InLoad(longer, i) && Extends(run, longer)
    ensures Scene2(Last(longer), cells, reader, Writer(Sweeping(job, Pay(0, 0))))
    ensures var s, s' := Last(run), Last(longer);
      s'.refs == s.refs && s'.handles == s.handles && s'.guards == s.guards && s'.nodes[0].slots == s.nodes[0].slots
  {
    longer := GoOn(run, i, Run(1, false));
    longer := GoOn(longer, i, Run(1, false));
    longer := GoOn(longer, i, Run(1, false));
  }

  lemma SweepFinishes(run: seq<State>, i: nat, cells: seq<Cell>, reader: Thread, job: Job) returns (longer: seq<State>)
    requires IsRun(run) && InLoad(run, i)
    requires Scene2(Last(run), cells, reader, Writer(Sweeping(job, Release(0))))
    ensures IsRun(longer) && InLoad(longer, i) && Extends(run, longer)
    ensures Scene2(Last(longer), cells, reader, Writer(Sweeping(job, Finish)))
    ensures var s, s' := Last(run), Last(longer);
      s'.refs == s.refs && s'.handles == s.handles && s'.guards == s.guards && s'.nodes[0].slots == s.nodes[0].slots
  {
    longer := GoOn(run, i, Run(1, false));
  }

  /** The end of a sweep that began with a swap. */
  lemma SweepEnds(run: seq<State>, i: nat, cells: seq<Cell>, reader: Thread, job: Job) returns (longer: seq<State>)
    requires IsRun(run) && InLoad(run, i) && job.kind.KSwap?
    requires Scene2(Last(run), cells, reader, Writer(Sweeping(job, Release(0))))
    ensures IsRun(longer) && InLoad(longer, i) && Extends(run, longer)
    ensures Scene2(Last(longer), cells, reader, Writer(Op.Idle))
    ensures var s, s' := Last(run), Last(longer);
      && s'.refs == Dec(s.refs, job.out) && s'.handles == Inc(s.handles, job.out) && s'.guards == s.guards
      && s'.nodes[0].slots == s.nodes[0].slots
  {
    longer := SweepFinishes(run, i, cells, reader, job);
    longer := GoOn(longer, i, Run(1, false));
    longer := GoOn(longer, i, Run(1, false));
  }

  /** Thread 0 has read 7 and is about to put its debt down. */
  lemma ReaderReads() returns (run: seq<State>, i: nat)
    ensures IsRun(run) && InLoad(run, i) && Furnished(Last(run), true)
    ensures Scene2(Last(run), [Cell(true, 7, [7])], Putting, Writer(Op.Idle)) && AllFree(Last(run).nodes[0])
  {
    run, i := ReaderStarts();
    run := Go(run, Run(0, false));
    run := Go(run, Run(0, false));
  }

  lemma ReaderStarts() returns (run: seq<State>, i: nat)
    ensures IsRun(run) && InLoad(run, i) && Furnished(Last(run), true)
    ensures Scene2(Last(run), [Cell(true, 7, [7])], Worker(0, 0, Loading, LStart(Asked)), Writer(Op.Idle)) && AllFree(Last(run).nodes[0])
  {
    run := Prepare(true);
    i := |run| - 1;
    run := Go(run, BeginLoad(0, 0, false));
  }

  /** Thread 1 swaps 9 into cell 0. */
  lemma FirstSwap() returns (run: seq<State>, i: nat)
    ensures IsRun(run) && InLoad(run, i)
    ensures Scene2(Last(run), Cells1, Putting, Writer(Sweeping(Job(0, 7, KSwap, 0), Prepay))) && AllFree(Last(run).nodes[0])
    ensures var s := Last(run); s.refs[7] == 1 && s.handles[7] == 0 && s.refs[5] == 0 && s.guards == []
  {
    run, i := ReaderReads();
    run := GoOn(run, i, BeginSwap(1, 0, 9));
    run := GoOn(run, i, Run(1, false));
    assert [7] + [9] == [7, 9];
  }

  /** Its sweep is over, and the old object 7 is dropped. */
  lemma OldObjectDies() returns (run: seq<State>, i: nat)
    ensures IsRun(run) && InLoad(run, i)
    ensures Scene2(Last(run), Cells1, Putting, Writer(Op.Idle)) && AllFree(Last(run).nodes[0])
    ensures var s := Last(run); s.refs[7] == 0 && s.refs[5] == 0 && s.guards == []
  {
    var job := Job(0, 7, KSwap, 0);
    run, i := FirstSwap();
    run := SweepBegins(run, i, Cells1, Putting, job);
    run := Pass(run, i, Cells1, Putting, job, 1, 0);
    run := SweepGoesOn(run, i, Cells1, Putting, job);
    run := Pass(run, i, Cells1, Putting, job, 0, 0);
    run := SweepEnds(run, i, Cells1, Putting, job);
    run := GoOn(run, i, DropHandle(7));
  }

  const Cells2 := [Cell(true, 9, [7, 9]), Cell(true, 7, [7])]
  const Confirms := Thread(0, 0, 1, Loading, LConfirm(Asked, 7, 0))

  /** A new object is created at address 7 and put into cell 1; only then thread 0 puts down its debt. */
  lemma NewObjectLives() returns (run: seq<State>, i: nat, z: nat)
    ensures IsRun(run) && InLoad(run, i) && i < z < |run| && run[z].refs[7] == 0 && run[z].cells == Cells1
    ensures Scene2(Last(run), Cells2, Putting, Writer(Op.Idle)) && AllFree(Last(run).nodes[0])
    ensures Last(run).guards == [] && Last(run).handles[5] > 0
  {
    run, i := OldObjectDies();
    z := |run| - 1;
    run := GoOn(run, i, NewObject(7));
    run := Stock(run, i);
  }

  lemma Stock(run: seq<State>, i: nat) returns (longer: seq<State>)
    requires IsRun(run) && InLoad(run, i) && Last(run).handles[7] > 0 && Last(run).refs[5] == 0 && Last(run).guards == []
    requires Scene2(Last(run), Cells1, Putting, Writer(Op.Idle)) && AllFree(Last(run).nodes[0])
    ensures IsRun(longer) && InLoad(longer, i) && Extends(run, longer)
    ensures Scene2(Last(longer), Cells2, Putting, Writer(Op.Idle)) && AllFree(Last(longer).nodes[0])
    ensures Last(longer).guards == [] && Last(longer).handles[5] > 0
  {
    longer := GoOn(run, i, NewCell(7));
    longer := GoOn(longer, i, NewObject(5));
  }

  lemma DebtOnNewObject() returns (run: seq<State>, i: nat, z: nat)
    ensures IsRun(run) && InLoad(run, i) && i < z < |run| && run[z].refs[7] == 0 && run[z].cells == Cells1
    ensures var s := Last(run);
      && Scene2(s, Cells2, Confirms, Writer(Op.Idle)) && s.handles[5] > 0
      && s.nodes[0].slots[0] == Owes(7, 0) && s.guards == [Guard(7, At(0, 0), false, 0, Pending(0))]
  {
    run, i, z := NewObjectLives();
    run := Go(run, Run(0, false));
  }

  const Cells3 := [Cell(true, 9, [7, 9]), Cell(true, 5, [7, 5])]

  /** Thread 1 swaps 5 into cell 1, and pays the debt. */
  lemma SecondSwap() returns (run: seq<State>, i: nat, z: nat)
    ensures IsRun(run) && InLoad(run, i) && i < z < |run| && run[z].refs[7] == 0 && run[z].cells == Cells1
    ensures var s := Last(run);
      && Scene2(s, Cells3, Confirms, Writer(Sweeping(Job(1, 7, KSwap, 0), Pay(1, 0))))
      && s.nodes[0].slots[0] == Owes(7, 0) && s.guards == [Guard(7, At(0, 0), false, 0, Pending(0))]
  {
    run, i, z := DebtOnNewObject();
    run := GoOn(run, i, BeginSwap(1, 1, 5));
    run := GoOn(run, i, Run(1, false));
    assert [7] + [5] == [7, 5];
    run := SweepBegins(run, i, Cells3, Confirms, Job(1, 7, KSwap, 0));
  }

  lemma DebtIsPaid() returns (run: seq<State>, i: nat, z: nat)
    ensures IsRun(run) && InLoad(run, i) && i < z < |run| && run[z].refs[7] == 0 && run[z].cells == Cells1
    ensures var s := Last(run);
      && Scene2(s, Cells3, Confirms, Writer(Sweeping(Job(1, 7, KSwap, 0), PayInc(0, 0))))
      && s.nodes[0].slots[0] == Free && s.guards == [Guard(7, At(0, 0), true, 0, Pending(0))]
  {
    var job := Job(1, 7, KSwap, 0);
    run, i, z := SecondSwap();
    run := Pass(run, i, Cells3, Confirms, job, 1, 0);
    run := SweepGoesOn(run, i, Cells3, Confirms, job);
    run := GoOn(run, i, Run(1, false));
  }

  /** Thread 0 leaves through the paid exit. */
  lemma ReaderLeaves() returns (run: seq<State>, i: nat, z: nat)
    ensures IsRun(run) && i < z < |run| - 1 && run[z].refs[7] == 0 && run[z].cells == Cells1
    ensures LoadRuns(run, i, |run| - 1, 0, Asked) && Last(run).cells == Cells3 && Last(run).refs[7] > 0
    ensures Last(run).threads[0].call == Done(Asked, 0) && Last(run).guards == [Guard(7, NoDebt, true, 0, Held(0))]
  {
    run, i, z := DebtIsPaid();
    run := Go(run, Run(0, false));
    run := Go(run, Run(0, false));
    RunOK(run, |run| - 1);
    CallProofs.PaidAlive(Last(run), 0);
  }

  /** With fast slots and reused addresses a load need not be exact: here a load of cell 0 returns the
      second object at address 7, which only cell 1 ever held. */
  lemma LoadReturnsAnotherObject() returns (run: seq<State>, i: nat, j: nat)
    ensures IsRun(run) && LoadRuns(run, i, j, 0, Asked)
    ensures |run[j].guards| == 1 && run[j].threads[0].call.g == 0 && run[j].guards[0].ptr == 7
    ensures !Exact(run, i, j, 0, 7)
  {
    var z;
    run, i, z := ReaderLeaves();
    j := |run| - 1;
    BornGrows(run, z, j, 7);
    forall k | i < k <= j && Holds(run[k], 0, 7) ensures Born(run, k, 7) != Born(run, j, 7) {
      if k >= z {
        StillNine(run, z, k, j);
      } else {
        BornGrows(run, k, z, 7);
      }
    }
  }

  lemma StillNine(run: seq<State>, z: nat, k: nat, j: nat)
    requires IsRun(run) && z <= k <= j < |run| && run[z].cells == Cells1 && run[j].cells == Cells3
    ensures !Holds(run[k], 0, 7)
  {
    HistGrows(run, z, k, 0);
    HistGrows(run, k, j, 0);
    CurrentVersion(run, k, 0);
  }
}
