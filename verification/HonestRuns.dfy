/**
 Runs on honest blocks: a branch stranded because the validator marked one of its blocks, one stranded by a
 restart, and a state segment that turns INVALID while the head moves on through it.
 */
module HonestRuns {
  import opened Blocks
  import opened SegmentGraph
  import opened GraphInvariant
  import opened ChainModel
  import opened ChainInvariant
  import opened SyncTheorems
  import opened Convergence
  import opened Examples

  // ---------------------------------------------------------------------------------------
  // Five blocks in a line

  const LINE := [None, Some(0), Some(1), Some(2), Some(3)]
  const HEIGHTS := [0, 1, 2, 3, 4]

  ghost predicate Line(env: Env) {
    && Minted(env, 0)
    && (forall r :: 0 <= r <= 4 ==> Timed(env, r) && Known(env, r) && Height(env, r) == r)
    && Parent(env, 1) == Some(0) && Parent(env, 2) == Some(1) && Parent(env, 3) == Some(2) && Parent(env, 4) == Some(3)
    && Linked(env, 0, 1) && Linked(env, 1, 2) && Linked(env, 2, 3) && Linked(env, 3, 4)
  }

  lemma LineFacts(env: Env)
    requires env == ExampleEnv(LINE, HEIGHTS)
    ensures Line(env)
  {
    ExampleFacts(env, LINE, HEIGHTS);
  }

  // ---------------------------------------------------------------------------------------
  // A stranded branch

  /** The rewind pulls in block 1 and the validator marks it. */
  lemma StrandedRun(env: Env, es: seq<Event>)
    requires Line(env)
    ensures Run(env, Run(env, NewChain(env, 0, 9), Sync([0, 1, 2], 20, OK, [true, false])), es).head != Some(2)
  {
    var c, w := NewChain(env, 0, 9), [0, 1, 2];
    NewChainInv(env, 0, 9);
    assert w[0] == 0 && w[1] == 1 && w[2] == 2;
    assert Branch(env, w);
    assert [true, false][0] && MarkedBelow([true, false]);
    assert Missing(env, c, w, 9, 20);
    MarkedBranchStranded(env, c, w, 9, 20, OK, [true, false], es);
  }

  /** On an honest chain the newest block is known, accepted and pulled in, and never becomes the head. */
  lemma MarkedBranchIsStranded()
    ensures exists env, fs :: Line(env) && NoRestart(fs) &&
              forall es :: Run(env, Run(env, NewChain(env, 0, 9), fs), es).head != Some(2)
  {
    var env, fs := ExampleEnv(LINE, HEIGHTS), Sync([0, 1, 2], 20, OK, [true, false]);
    LineFacts(env);
    assert Pulls(20, [true, false]) == [Pull(20, true)] + Pulls(20, [true, false][1..]);
    assert [true, false][1..] == [false] && [false][1..] == [];
    assert fs == [Commit(2, 20, OK), Pull(20, true), Pull(20, false)];
    assert NoRestart(fs);
    forall es ensures Run(env, Run(env, NewChain(env, 0, 9), fs), es).head != Some(2) {
      StrandedRun(env, es);
    }
  }

  // ---------------------------------------------------------------------------------------
  // An INVALID state segment

  function Minted0(): Graph {
    Graph(map[0 := Record(Some(9), None)], map[9 := Seg(9, Disjointed, 0, 0, 0, None, None)], {9})
  }

  // Segment 20 takes in blocks 2 and 1 and is attached to segment 9.
  function Opened(): Graph {
    Graph(Minted0().records[2 := Record(Some(20), None)],
          Minted0().segs[20 := Seg(20, Disjointed, 2, 2, 2, None, None)], {9, 20})
  }

  function Pulled(): Graph {
    Opened().(records := Opened().records[1 := Record(Some(20), Some(2))],
              segs := Opened().segs[20 := Seg(20, Disjointed, 2, 1, 1, None, None)])
  }

  function Attached(): Graph {
    Graph(Pulled().records,
          map[9 := Seg(9, Disjointed, 0, 0, 0, None, Some(20)), 20 := Seg(20, Disjointed, 2, 1, 1, Some(9), None)],
            {9})
  }

  // Segment 21 takes in blocks 4 and 3 and is attached to segment 20, which is queued again.
  function Opened2(): Graph {
    Graph(Attached().records[4 := Record(Some(21), None)],
          Attached().segs[21 := Seg(21, Disjointed, 4, 4, 4, None, None)], {9, 21})
  }

  function Pulled2(): Graph {
    Opened2().(records := Opened2().records[3 := Record(Some(21), Some(4))],
               segs := Opened2().segs[21 := Seg(21, Disjointed, 4, 3, 3, None, None)])
  }

  function Attached2(): Graph {
    Graph(Pulled2().records,
          map[9 := Seg(9, Disjointed, 0, 0, 0, None, Some(20)), 20 := Seg(20, Disjointed, 2, 1, 1, Some(9), Some(21)),
              21 := Seg(21, Disjointed, 4, 3, 3, Some(20), None)], {9, 20})
  }

  lemma FirstBranch(env: Env, c: Chain)
    requires Line(env) && c.graph == Minted0() && c.head.Some?
    ensures Step(env, c, Commit(2, 20, OK)) == c.(graph := Opened())
    ensures Step(env, c.(graph := Opened()), Pull(20, false)) == c.(graph := Pulled())
  {
    assert Rec(Minted0(), 1).segment.None?;
    assert Minted0().queue + {20} == {9, 20};
    assert Opened().queue - {20} + {20} == {9, 20};
    assert RewindSegment(env, PopQueue(Opened(), 20), 20, true, OK).graph.segs == Pulled().segs;
  }

  lemma FirstSplice(env: Env, c: Chain)
    requires Line(env) && c.graph == Pulled() && c.head.Some?
    ensures Step(env, c, Pull(20, false)) == c.(graph := Attached())
  {
    var r := RewindSegment(env, PopQueue(Pulled(), 20), 20, true, OK);
    assert r.graph == AppendSegment(env, PopQueue(Pulled(), 20), 9, 20, OK);
    assert r.graph.segs == Attached().segs;
    assert Pulled().queue - {20} + {9} == {9};
  }

  lemma SecondBranch(env: Env, c: Chain)
    requires Line(env) && c.graph == Attached() && c.head.Some?
    ensures Step(env, c, Commit(4, 21, OK)) == c.(graph := Opened2())
    ensures Step(env, c.(graph := Opened2()), Pull(21, false)) == c.(graph := Pulled2())
  {
    assert Rec(Attached(), 3).segment.None?;
    assert Attached().queue + {21} == {9, 21};
    assert Opened2().queue - {21} + {21} == {9, 21};
    assert RewindSegment(env, PopQueue(Opened2(), 21), 21, true, OK).graph.segs == Pulled2().segs;
  }

  lemma SecondSplice(env: Env, c: Chain)
    requires Line(env) && c.graph == Pulled2() && c.head.Some?
    ensures Step(env, c, Pull(21, false)) == c.(graph := Attached2())
  {
    var r := RewindSegment(env, PopQueue(Pulled2(), 21), 21, true, OK);
    assert r.graph == AppendSegment(env, PopQueue(Pulled2(), 21), 20, 21, OK);
    assert r.graph.segs == Attached2().segs;
    assert Pulled2().queue - {21} + {20} == {9, 20};
  }

  const REFUSE := Rewind(20, true, Rejected, true)

  /** The state segment is INVALID, still attached on both sides. */
  ghost predicate InvalidState(c: Chain) {
    && c.stateSegment == Some(20) && 20 in c.graph.segs && c.head == Some(2)
    && c.graph.segs[20] == Seg(20, Invalid, 2, 1, 1, Some(9), Some(21))
    && 21 in c.graph.segs && c.graph.segs[21].head == 4
  }

  lemma SecondSpliceRefused(env: Env, c: Chain)
    requires Line(env) && c.graph == Attached2() && c.head == Some(2) && c.stateSegment == Some(20)
    ensures InvalidState(Step(env, c, REFUSE))
  {
    var g := PopQueue(Attached2(), 20);
    assert RewindSegment(env, g, 20, true, Rejected).graph == AppendSegment(env, g, 9, 20, Rejected);
  }

  /** The two commits and rewinds that attach a segment, each as one hop from `c` on. */
  lemma FirstRun(env: Env, c: Chain)
    requires Line(env) && c.graph == Minted0() && c.head.Some?
    ensures Reaches(env, c, c.(graph := Attached()))
  {
    FirstBranch(env, c);
    FirstSplice(env, c.(graph := Pulled()));
    ReachStart(env, c);
    ReachNext(env, c, c, Commit(2, 20, OK), c.(graph := Opened()));
    ReachNext(env, c, c.(graph := Opened()), Pull(20, false), c.(graph := Pulled()));
    ReachNext(env, c, c.(graph := Pulled()), Pull(20, false), c.(graph := Attached()));
  }

  lemma SecondRun(env: Env, c0: Chain, c: Chain)
    requires Line(env) && Reaches(env, c0, c) && c.graph == Attached() && c.head.Some?
    ensures Reaches(env, c0, c.(graph := Attached2()))
  {
    SecondBranch(env, c);
    SecondSplice(env, c.(graph := Pulled2()));
    ReachNext(env, c0, c, Commit(4, 21, OK), c.(graph := Opened2()));
    ReachNext(env, c0, c.(graph := Opened2()), Pull(21, false), c.(graph := Pulled2()));
    ReachNext(env, c0, c.(graph := Pulled2()), Pull(21, false), c.(graph := Attached2()));
  }

  lemma FollowFirst(env: Env, c: Chain)
    requires Line(env) && c.graph == Attached() && c.stateSegment == Some(9)
    ensures var d := Step(env, c, Manage(0, 0));
            d.graph == Attached() && d.head == Some(2) && d.stateSegment == Some(20)
  {
  }

  lemma InvalidStateRun(env: Env)
    requires Line(env)
    ensures exists c :: Reaches(env, NewChain(env, 0, 9), c) && InvalidState(c)
  {
    var c0 := NewChain(env, 0, 9);
    assert c0.graph.queue == {9};
    assert c0.graph == Minted0();
    FirstRun(env, c0);
    var c1 := c0.(graph := Attached());
    FollowFirst(env, c1);
    var c2 := Step(env, c1, Manage(0, 0));
    ReachNext(env, c0, c1, Manage(0, 0), c2);
    SecondRun(env, c0, c2);
    var c3 := c2.(graph := Attached2());
    SecondSpliceRefused(env, c3);
    ReachNext(env, c0, c3, REFUSE, Step(env, c3, REFUSE));
  }

  lemma MovesOn(env: Env, c: Chain)
    requires Line(env) && InvalidState(c)
    ensures Step(env, c, Manage(0, 0)).head == Some(4)
  {
  }

  /** Queued again when a third segment attaches to it, the state segment is validated a second time;
      a refusal makes it INVALID, and the head moves on through it. */
  lemma StateSegmentTurnsInvalid()
    ensures exists env, c ::
              && Line(env) && Reaches(env, NewChain(env, 0, 9), c)
              && InvalidState(c) && Step(env, c, Manage(0, 0)).head == Some(4)
  {
    var env := ExampleEnv(LINE, HEIGHTS);
    LineFacts(env);
    InvalidStateRun(env);
    var c :| Reaches(env, NewChain(env, 0, 9), c) && InvalidState(c);
    MovesOn(env, c);
  }

  // ---------------------------------------------------------------------------------------
  // A branch stranded by a restart

  /** Only the five blocks are known, each naming the one before. */
  ghost predicate OnlyLine(env: Env) {
    && (forall r :: Known(env, r) ==> 0 <= r <= 4)
    && (forall r :: Known(env, r) && Parent(env, r).Some? ==> r > 0 && Parent(env, r) == Some(r - 1))
  }

  lemma LineOnly()
    ensures OnlyLine(ExampleEnv(LINE, HEIGHTS))
  {
    var env := ExampleEnv(LINE, HEIGHTS);
    forall r | Known(env, r) ensures 0 <= r <= 4 && Parent(env, r) == LINE[r] {}
  }

  lemma LineHonest(env: Env)
    requires Line(env) && OnlyLine(env)
    ensures HonestLinks(env) && Unforked(env)
  {
    forall r, p | Known(env, r) && Known(env, p) && Parent(env, r) == Some(p) ensures Linked(env, p, r) {
      assert r == 1 || r == 2 || r == 3 || r == 4;
    }
  }

  const AGAIN := Restart(0, 0)

  // In the second life block 4 opens segment 20, block 3 is pulled in, and the node adopts the segment.
  function HighOpened(): Graph {
    Graph(Minted0().records[4 := Record(Some(20), None)],
          Minted0().segs[20 := Seg(20, Disjointed, 4, 4, 4, None, None)], {20})
  }

  function HighAdopted(): Graph {
    Graph(HighOpened().records[3 := Record(Some(20), Some(4))],
          Minted0().segs[20 := Seg(20, Valid, 4, 3, 3, None, None)], {})
  }

  // In the third life block 2 opens segment 21, block 1 is pulled in, and the node adopts that one.
  function LowOpened(): Graph {
    Graph(HighAdopted().records[2 := Record(Some(21), None)],
          HighAdopted().segs[21 := Seg(21, Disjointed, 2, 2, 2, None, None)], {21})
  }

  function LowAdopted(): Graph {
    Graph(LowOpened().records[1 := Record(Some(21), Some(2))],
          HighAdopted().segs[21 := Seg(21, Valid, 2, 1, 1, None, None)], {})
  }

  lemma OpenHigh(env: Env, g: Graph)
    requires Line(env) && g == Minted0().(queue := {})
    ensures CommitBlock(env, g, 4, 20, OK) == HighOpened()
  {
    assert Rec(g, 3).segment.None?;
    assert {} + {20} == {20};
    assert CommitBlock(env, g, 4, 20, OK) == NewSegment(env, g, 4, 20);
  }

  lemma AdoptHigh(env: Env, c: Chain)
    requires Line(env) && c.graph == HighOpened() && c.head.None?
    ensures Step(env, c, Pull(20, false)).graph == HighAdopted()
  {
    var g := PopQueue(HighOpened(), 20);
    assert Rec(g, 3).segment.None? && Timed(env, 3) && Timed(env, 4);
    assert RewindSegment(env, g, 20, true, OK) == Rewound(ExtendTail(env, g, 20, 3, OK), true);
    assert Step(env, c, Pull(20, false)).graph.segs == HighAdopted().segs;
    assert Step(env, c, Pull(20, false)).graph.queue == {};
  }

  lemma OpenLow(env: Env, g: Graph)
    requires Line(env) && g == HighAdopted()
    ensures CommitBlock(env, g, 2, 21, OK) == LowOpened()
  {
    assert Rec(g, 1).segment.None?;
    assert {} + {21} == {21};
    assert CommitBlock(env, g, 2, 21, OK) == NewSegment(env, g, 2, 21);
  }

  lemma AdoptLow(env: Env, c: Chain)
    requires Line(env) && c.graph == LowOpened() && c.head.None?
    ensures var d := Step(env, c, Pull(21, false));
            d.graph == LowAdopted() && d.head == Some(2) && d.stateSegment == Some(21)
  {
    var g := PopQueue(LowOpened(), 21);
    assert Rec(g, 1).segment.None? && Timed(env, 1) && Timed(env, 2);
    assert RewindSegment(env, g, 21, true, OK) == Rewound(ExtendTail(env, g, 21, 1, OK), true);
    assert Step(env, c, Pull(21, false)).graph.segs == LowAdopted().segs;
    assert Step(env, c, Pull(21, false)).graph.queue == {};
  }

  lemma ThreeLives(env: Env)
    requires Line(env)
    ensures exists c :: Reaches(env, NewChain(env, 0, 9), c) && c.graph == LowAdopted() && c.head == Some(2)
                        && c.stateSegment == Some(21)
  {
    var c0 := NewChain(env, 0, 9);
    assert c0.graph.queue == {9};
    assert c0.graph == Minted0();
    ReachStart(env, c0);
    var c1 := Step(env, c0, AGAIN);
    ReachNext(env, c0, c0, AGAIN, c1);
    OpenHigh(env, c1.graph);
    var c2 := c1.(graph := HighOpened());
    ReachNext(env, c0, c1, Commit(4, 20, OK), c2);
    AdoptHigh(env, c2);
    var c3 := Step(env, c2, Pull(20, false));
    ReachNext(env, c0, c2, Pull(20, false), c3);
    var c4 := Step(env, c3, AGAIN);
    ReachNext(env, c0, c3, AGAIN, c4);
    OpenLow(env, c4.graph);
    var c5 := c4.(graph := LowOpened());
    ReachNext(env, c0, c4, Commit(2, 21, OK), c5);
    AdoptLow(env, c5);
    ReachNext(env, c0, c5, Pull(21, false), Step(env, c5, Pull(21, false)));
  }

  /** The queue is empty and every block is held, but blocks 3 and 4 can never be the head again. */
  ghost predicate CutOff(env: Env, c: Chain) {
    && c.graph.queue == {} && c.head == Some(2) && (forall r :: 0 <= r <= 4 ==> Rec(c.graph, r).segment.Some?)
    && forall es :: Run(env, c, es).head != Some(3) && Run(env, c, es).head != Some(4)
  }

  lemma HighStranded(env: Env, c: Chain)
    requires Inv(env, c) && c.graph == LowAdopted() && c.head == Some(2) && c.stateSegment == Some(21)
    ensures CutOff(env, c)
  {
    forall es ensures Run(env, c, es).head != Some(3) && Run(env, c, es).head != Some(4) {
      StrandedForGood(env, c, es, 20);
      RunInv(env, c, es);
      var d := Run(env, c, es);
      assert RecordEvolves(Rec(c.graph, 3), Rec(d.graph, 3)) && RecordEvolves(Rec(c.graph, 4), Rec(d.graph, 4));
    }
  }

  /** Catching up can fail across restarts, on an honest chain without forks and with no block marked: a
      node that adopted the upper part of its branch, restarted, and then adopted the lower part never
      joins the two. */
  lemma RestartStrandsBranch()
    ensures exists env, c ::
              && Line(env) && HonestLinks(env) && Unforked(env)
              && Reaches(env, NewChain(env, 0, 9), c) && CutOff(env, c)
  {
    var env := ExampleEnv(LINE, HEIGHTS);
    LineFacts(env);
    LineOnly();
    LineHonest(env);
    ThreeLives(env);
    var c :| Reaches(env, NewChain(env, 0, 9), c) && c.graph == LowAdopted() && c.head == Some(2)
             && c.stateSegment == Some(21);
    NewChainInv(env, 0, 9);
    var es :| Run(env, NewChain(env, 0, 9), es) == c;
    RunInv(env, NewChain(env, 0, 9), es);
    HighStranded(env, c);
  }
}
