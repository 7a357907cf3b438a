/** The state machine does what it is for: a concrete run. */
module Witness {
  import opened Protocol
  import opened Steps
  import opened Invariant
  import opened Moves
  import opened Preservation
  import opened Theorems

  function Last(run: seq<State>): State
    requires |run| > 0
  {
    run[|run| - 1]
  }

  /** A run goes on with an action that is possible. */
  lemma Go(run: seq<State>, a: Action) returns (longer: seq<State>)
    requires IsRun(run) && (Shape(Last(run)) ==> Enabled(Last(run), a))
    ensures Enabled(Last(run), a) && IsRun(longer) && longer == run + [Apply(Last(run), a)]
  {
    RunOK(run, |run| - 1);
    InvShape(Last(run));
    longer := run + [Apply(Last(run), a)];
    forall i: nat | i + 1 < |longer| ensures StepAt(longer, i) {
      if i + 1 < |run| { assert StepAt(run, i); } else { assert longer[i] == Last(run); }
    }
  }

  const Empty := State(true, multiset{}, multiset{}, [], [], -1, [], [], [], 0)

  function Worker(n: int, gen: nat, op: Op, call: Call): Thread { Thread(n, gen, 0, op, call) }

  /** An object 7 in a cell, and an object 9 outside. */
  predicate Furnished(s: State, fast: bool) {
    && s.useFast == fast && s.cells == [Cell(true, 7, [7])] && s.guards == [] && s.nextTxn == 0
    && s.handles[9] > 0 && s.refs[7] == 1 && s.handles[7] == 0 && s.refs[5] == 0
  }

  lemma Furnish(fast: bool) returns (run: seq<State>)
    ensures IsRun(run) && Furnished(Last(run), fast)
    ensures Last(run).nodes == [] && Last(run).env == [] && Last(run).head == -1 && Last(run).threads == []
  {
    run := [Empty.(useFast := fast)];
    run := Go(run, NewObject(7));
    run := Go(run, NewCell(7));
    run := Go(run, NewObject(9));
  }

  lemma Stage(fast: bool) returns (run: seq<State>)
    ensures IsRun(run) && Furnished(Last(run), fast)
    ensures Last(run).nodes == [] && Last(run).env == [] && Last(run).head == -1 && Last(run).threads == [FreshThread, FreshThread]
  {
    run := Furnish(fast);
    run := Go(run, Spawn);
    run := Go(run, Spawn);
  }

  lemma FirstNode(fast: bool) returns (run: seq<State>)
    ensures IsRun(run) && Furnished(Last(run), fast)
    ensures var s := Last(run);
      && s.nodes == [FreshNode(0, -1, 0)] && |s.env| == 1 && s.head == 0
      && s.threads == [Worker(0, 0, Op.Idle, NoCall), FreshThread]
  {
    run := Stage(fast);
    run := Go(run, BeginGet(0));
    run := Go(run, Run(0, false));
    run := Go(run, Run(0, false));
    run := Go(run, Run(0, false));
  }

  lemma SecondSearch(fast: bool) returns (run: seq<State>)
    ensures IsRun(run) && Furnished(Last(run), fast)
    ensures var s := Last(run);
      && s.nodes == [FreshNode(0, -1, 0)] && |s.env| == 1 && s.head == 0
      && s.threads == [Worker(0, 0, Op.Idle, NoCall), Worker(-1, 0, GTop, NoCall)]
  {
    run := FirstNode(fast);
    run := Go(run, BeginGet(1));
    run := Go(run, Run(1, false));
    run := Go(run, Run(1, false));
    run := Go(run, Run(1, false));
  }

  /** Two threads with their nodes. */
  lemma Prepare(fast: bool) returns (run: seq<State>)
    ensures IsRun(run) && Furnished(Last(run), fast)
    ensures var s := Last(run);
      && s.nodes == [FreshNode(0, -1, 0), FreshNode(1, 0, 1)] && |s.env| == 2 && s.head == 1
      && s.threads == [Worker(0, 0, Op.Idle, NoCall), Worker(1, 0, Op.Idle, NoCall)]
  {
    run := SecondSearch(fast);
    run := Go(run, Run(1, false));
    run := Go(run, Run(1, false));
  }

  // ---------------------------------------------------------------------------------------------
  // A guard that owes its reference

  lemma Scan() returns (run: seq<State>)
    ensures IsRun(run) && Furnished(Last(run), true)
    ensures var s := Last(run);
      && s.nodes == [FreshNode(0, -1, 0), FreshNode(1, 0, 1)] && s.head == 1
      && s.threads == [Worker(0, 0, Loading, LPut(Ask(0, 0, false), 7, 0)), Worker(1, 0, Op.Idle, NoCall)]
  {
    run := Prepare(true);
    run := Go(run, BeginLoad(0, 0, false));
    run := Go(run, Run(0, false));
    run := Go(run, Run(0, false));
  }

  lemma LoadOnce() returns (run: seq<State>)
    ensures IsRun(run)
    ensures var s := Last(run);
      && s.handles[9] > 0 && s.cells == [Cell(true, 7, [7])] && s.guards == [Guard(7, At(0, 0), false, 0, Loose)]
      && |s.threads| == 2 && s.threads[0].op.Idle? && s.threads[0].call.NoCall? && s.threads[0].node == 0
  {
    run := Scan();
    run := Go(run, Run(0, false));
    run := Go(run, Run(0, false));
    run := Go(run, Run(0, false));
  }

  /** A guard without a reference of its own can outlive its value's stay in the cell: what keeps the
      object alive then is the writer that has not come to its slot yet. */
  lemma GuardOutlivesTheSwap() returns (s: State)
    ensures Reachable(s) && s.guards == [Guard(7, At(0, 0), false, 0, Loose)] && s.cells == [Cell(true, 9, [7, 9])]
    ensures s.refs[7] > 0 && Covered(s, 0, 7, 0, 0)
  {
    var run := LoadOnce();
    run := Go(run, BeginSwap(0, 0, 9));
    run := Go(run, Run(0, false));
    s := Last(run);
    assert [7] + [9] == [7, 9];
    assert run[|run| - 1] == s;
    GuardAlive(s, 0);
    DebtIsCovered(s, 0);
  }

  // ---------------------------------------------------------------------------------------------
  // A load that is helped

  ghost predicate AllFree(nd: Node) { |nd.slots| == SLOTS && forall j :: 0 <= j < SLOTS ==> nd.slots[j].Free? }

  /** Two threads with a node each, without fast slots.  Thread 0 reads, thread 1 writes. */
  ghost predicate Scene(s: State, val: Ptr, control: Control, reader: Thread, writer: Thread) {
    && !s.useFast && |s.cells| == 1 && s.cells[0].live && s.cells[0].val == val
    && |s.cells[0].hist| == (if val == 7 then 1 else 2)
    && |s.nodes| == 2 && |s.env| == 2 && s.head == 1 && s.threads == [reader, writer]
    && s.nodes[0].control == control && s.nodes[0].offer == 0 && s.nodes[0].next == -1
    && (control != Control.Idle ==> s.nodes[0].addr == 0)
    && s.nodes[1].control == Control.Idle && s.nodes[1].offer == 1 && s.nodes[1].next == 0
    && AllFree(s.nodes[1]) && s.nextTxn <= 1 && (control.Gen? ==> s.nextTxn == 1)
  }

  const Reader := Worker(0, 1, Loading, FSlot(Ask(0, 0, false), 0, 7))
  const Seen0 := Obs(0, 1, 0, 1)

  function Sweeper(pc: Pc): Op { Sweeping(Job(0, 7, KSwap, 1), pc) }

  lemma ReaderAsks() returns (run: seq<State>)
    ensures IsRun(run) && Last(run).handles[9] > 0 && Last(run).nextTxn == 0
    ensures Scene(Last(run), 7, Control.Idle, Worker(0, 0, Loading, FAddr(Ask(0, 0, false))), Worker(1, 0, Op.Idle, NoCall))
  {
    run := Prepare(false);
    run := Go(run, BeginLoad(0, 0, false));
    run := Go(run, Run(0, false));
  }

  lemma ReaderPublishes() returns (run: seq<State>)
    ensures IsRun(run) && Last(run).handles[9] > 0
    ensures Scene(Last(run), 7, Gen(1, 0), Worker(0, 1, Loading, FRead(Ask(0, 0, false), 0)), Worker(1, 0, Op.Idle, NoCall))
  {
    run := ReaderAsks();
    run := Go(run, Run(0, false));
    run := Go(run, Run(0, false));
  }

  /** The reader has published its generation and read 7. */
  lemma ReaderStarts() returns (run: seq<State>)
    ensures IsRun(run) && Last(run).handles[9] > 0
    ensures Scene(Last(run), 7, Gen(1, 0), Reader, Worker(1, 0, Op.Idle, NoCall))
  {
    run := ReaderPublishes();
    run := Go(run, Run(0, false));
  }

  /** The writer swaps 9 in and comes to its own node first. */
  lemma WriterStarts() returns (run: seq<State>)
    ensures IsRun(run)
    ensures Scene(Last(run), 9, Gen(1, 0), Reader, Worker(1, 0, Sweeper(Pay(1, 0)), NoCall))
  {
    run := ReaderStarts();
    run := Go(run, BeginSwap(1, 0, 9));
    run := Go(run, Run(1, false));
    run := Go(run, Run(1, false));
    run := Go(run, Run(1, false));
    run := Go(run, Run(1, false));
    run := Go(run, Run(1, false));
  }

  lemma {:induction false} WriterPasses(run: seq<State>, i: nat) returns (longer: seq<State>)
    requires IsRun(run) && i < SLOTS
    requires Scene(Last(run), 9, Gen(1, 0), Reader, Worker(1, 0, Sweeper(Pay(1, i)), NoCall))
    ensures IsRun(longer)
    ensures Scene(Last(longer), 9, Gen(1, 0), Reader, Worker(1, 0, Sweeper(Release(1)), NoCall))
    decreases SLOTS - i
  {
    longer := Go(run, Run(1, false));
    if i + 1 < SLOTS { longer := WriterPasses(longer, i + 1); }
  }

  /** The writer finds the reader and begins a load on its behalf. */
  lemma WriterLooks() returns (run: seq<State>)
    ensures IsRun(run)
    ensures Scene(Last(run), 9, Gen(1, 0), Reader, Worker(1, 0, Sweeper(HLoad(Seen0)), LStart(Ask(0, 1, true))))
  {
    run := WriterStarts();
    run := WriterPasses(run, 0);
    run := Go(run, Run(1, false));
    run := Go(run, Run(1, false));
    run := Go(run, Run(1, false));
    run := Go(run, Run(1, false));
  }

  /** The nested load, up to its debt. */
  lemma WriterBorrows() returns (run: seq<State>, x: nat)
    ensures IsRun(run) && x > 0
    ensures var s := Last(run);
      && |s.cells| == 1 && |s.nodes| == 2 && s.nodes[0].control == Gen(1, 0) && s.nodes[0].offer == 0
      && s.nodes[1].control == Gen(1, x) && s.nodes[1].offer == 1 && |s.nodes[1].slots| == SLOTS && |s.env| == 2
      && s.threads == [Reader, Worker(1, 1, Sweeper(HLoad(Seen0)), FSlot(Ask(0, 1, true), x, 9))]
  {
    run := WriterLooks();
    x := Last(run).nextTxn;
    run := Go(run, Run(1, false));
    run := Go(run, Run(1, false));
    run := Go(run, Run(1, false));
    run := Go(run, Run(1, false));
  }

  /** It confirms that debt. */
  lemma WriterConfirms() returns (run: seq<State>, g: nat)
    ensures IsRun(run)
    ensures var s := Last(run);
      && |s.cells| == 1 && |s.nodes| == 2 && |s.env| == 2 && s.nodes[0].control == Gen(1, 0) && s.nodes[0].offer == 0
      && s.nodes[1].offer == 1 && |s.nodes[1].slots| == SLOTS && s.nodes[1].slots[HELPING] == Owes(9, g)
      && s.threads == [Reader, Worker(1, 1, Sweeper(HLoad(Seen0)), InInc(Ask(0, 1, true), 9, g))]
      && g < |s.guards| && s.guards[g] == Guard(9, At(1, HELPING), false, 0, Held(1))
  {
    var x;
    run, x := WriterBorrows();
    g := |Last(run).guards|;
    run := Go(run, Run(1, false));
    run := Go(run, Run(1, false));
  }

  /** It gets a reference of its own. */
  lemma WriterLoads() returns (run: seq<State>, g: nat)
    ensures IsRun(run)
    ensures var s := Last(run);
      && |s.cells| == 1 && |s.nodes| == 2 && |s.env| == 2 && s.nodes[0].control == Gen(1, 0) && s.nodes[0].offer == 0 && s.nodes[1].offer == 1
      && s.threads == [Reader, Worker(1, 1, Sweeper(HLoad(Seen0)), Done(Ask(0, 1, true), g))]
      && g < |s.guards| && s.guards[g].ptr == 9
  {
    run, g := WriterConfirms();
    run := Go(run, Run(1, false));
    run := Go(run, Run(1, false));
  }

  lemma WriterPrepares() returns (run: seq<State>)
    ensures IsRun(run)
    ensures var s := Last(run);
      && |s.cells| == 1 && |s.nodes| == 2 && |s.env| == 2 && s.nodes[0].control == Gen(1, 0)
      && s.threads == [Reader, Worker(1, 1, Sweeper(HWrite(Seen0, 9, 0, 1)), NoCall)]
  {
    var g;
    run, g := WriterLoads();
    run := Go(run, Run(1, false));
    run := Go(run, Run(1, false));
    run := Go(run, Run(1, false));
  }

  /** The replacement goes into the envelope, and the envelope into the reader's control. */
  lemma WriterHelps() returns (run: seq<State>)
    ensures IsRun(run)
    ensures var s := Last(run);
      && |s.nodes| == 2 && s.nodes[0].control == Repl(1, 9)
      && s.threads == [Reader, Worker(1, 1, Sweeper(HStore(0, 0)), NoCall)]
  {
    run := WriterPrepares();
    run := Go(run, Run(1, false));
    run := Go(run, Run(1, false));
  }

  lemma ReaderConfirms() returns (run: seq<State>)
    ensures IsRun(run)
    ensures var s := Last(run);
      && |s.threads| == 2 && s.threads[0].call.FEnv? && s.threads[1].op == Sweeper(HStore(0, 0))
      && s.threads[0].call.ask == Ask(0, 0, false) && s.threads[0].call.p == 7 && s.threads[0].call.r == 9
  {
    run := WriterHelps();
    run := Go(run, Run(0, false));
    run := Go(run, Run(0, false));
  }

  /** A reader that is about to confirm 7 is helped: it takes 9 instead, which its writer has loaded for
      it, and which the cell held during the load. */
  lemma LoadIsHelped() returns (s: State)
    ensures Reachable(s) && |s.threads| == 2 && s.threads[0].call.FEnv? && s.threads[1].op == Sweeper(HStore(0, 0))
    ensures s.threads[0].call.ask == Ask(0, 0, false) && s.threads[0].call.p == 7 && s.threads[0].call.r == 9
    ensures Seen(s, 0, 0, 9)
  {
    var run := ReaderConfirms();
    s := Last(run);
    assert run[|run| - 1] == s;
    HelpedReaderReads(s, 0);
  }
}
