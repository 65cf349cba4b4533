/**
 Why NoRollback needs honest heights: a concrete run in which the chain head leaves a block
 for one that does not descend from it. Block 3 names block 1 as its parent but states the
 height after block 2. Committed directly it would be refused as a fork; pulled in by the
 rewind of block 4 it is spliced after block 2.
 */
module Rollback {
  import opened Blocks
  import opened SegmentGraph
  import opened ChainModel
  import opened Examples

  /** What the run needs to know of the five blocks. */
  ghost predicate Fork(env: Env) {
    && (forall r :: 0 <= r <= 4 ==> Known(env, r))
    && Parent(env, 0) == None && Parent(env, 1) == Some(0) && Parent(env, 2) == Some(1)
    && Parent(env, 3) == Some(1) && Parent(env, 4) == Some(3)
    && Height(env, 0) == 0 && Height(env, 1) == 1 && Height(env, 2) == 2 && Height(env, 3) == 3 && Height(env, 4) == 4
    && Linked(env, 0, 1) && Linked(env, 1, 2) && Linked(env, 2, 3) && Linked(env, 3, 4)
  }

  const PARENTS := [None, Some(0), Some(1), Some(1), Some(3)]
  const HEIGHTS := [0, 1, 2, 3, 4]

  lemma ForkFacts(env: Env)
    requires env == ExampleEnv(PARENTS, HEIGHTS)
    ensures Fork(env) && Minted(env, 0)
  {
    ExampleFacts(env, PARENTS, HEIGHTS);
    assert Known(env, 0) && Known(env, 1) && Known(env, 2) && Known(env, 3) && Known(env, 4);
  }

  // Blocks 1 and 2 extend the genesis segment 9.
  const START := Graph(map[0 := Record(Some(9), None)], map[9 := Seg(9, Disjointed, 0, 0, 0, None, None)], {9})
  const ONE := Graph(map[0 := Record(Some(9), Some(1)), 1 := Record(Some(9), None)],
                     map[9 := Seg(9, Disjointed, 1, 0, 0, None, None)], {9})
  const TWO := Graph(map[0 := Record(Some(9), Some(1)), 1 := Record(Some(9), Some(2)), 2 := Record(Some(9), None)],
                     map[9 := Seg(9, Disjointed, 2, 0, 0, None, None)], {9})

  lemma Climb(env: Env)
    requires Fork(env)
    ensures CommitBlock(env, START, 1, 20, OK) == ONE && CommitBlock(env, ONE, 2, 20, OK) == TWO
  {
  }

  // Block 4 opens segment 21, whose rewind pulls in block 3 and then meets block 1.
  function Opened(): Graph {
    TWO.(records := TWO.records[4 := Record(Some(21), None)],
         segs := TWO.segs[21 := Seg(21, Disjointed, 4, 4, 4, None, None)], queue := {9, 21})
  }

  function Pulled(): Graph {
    TWO.(records := TWO.records[4 := Record(Some(21), None)][3 := Record(Some(21), Some(4))],
         segs := TWO.segs[21 := Seg(21, Disjointed, 4, 3, 3, None, None)], queue := {9, 21})
  }

  lemma Open(env: Env)
    requires Fork(env)
    ensures CommitBlock(env, TWO, 4, 21, OK) == Opened()
  {
  }

  lemma Pull(env: Env, c: Chain)
    requires Fork(env) && c.graph == Opened() && c.head.Some?
    ensures RewindOnce(env, c, 21, true, OK, true) == c.(graph := Pulled())
  {
  }

  lemma Splice(env: Env, c: Chain)
    requires Fork(env) && c.graph == Pulled() && c.head == Some(2) && c.stateSegment == Some(9)
    ensures var d := RewindOnce(env, c, 21, true, OK, true);
            && 9 in d.graph.segs && d.graph.segs[9].next == Some(21)
            && 21 in d.graph.segs && d.graph.segs[21].head == 4
            && d.head == Some(2) && d.stateSegment == Some(9)
  {
  }

  const CLIMB := [Commit(1, 20, OK), Commit(2, 20, OK), Manage(0, 0)]
  const FORK := [Commit(4, 21, OK), Rewind(21, true, OK, true), Rewind(21, true, OK, true), Manage(0, 0)]

  lemma ClimbRun(env: Env)
    requires Fork(env)
    ensures var c := Run(env, NewChain(env, 0, 9), CLIMB);
            c.head == Some(2) && c.graph == TWO && c.stateSegment == Some(9)
  {
    var c := NewChain(env, 0, 9);
    assert c.graph.queue == {9};
    assert c.graph == START;
    Climb(env);
    RunThree(env, c, CLIMB[0], CLIMB[1], CLIMB[2]);
  }

  lemma ForkRun(env: Env, c: Chain)
    requires Fork(env) && c.graph == TWO && c.head == Some(2) && c.stateSegment == Some(9)
    ensures Run(env, c, FORK).head == Some(4)
  {
    Open(env);
    var c1 := c.(graph := Opened());
    Pull(env, c1);
    var c2 := c.(graph := Pulled());
    Splice(env, c2);
    var c3 := RewindOnce(env, c2, 21, true, OK, true);
    assert Step(env, c, FORK[0]) == c1 && Step(env, c1, FORK[1]) == c2 && Step(env, c2, FORK[2]) == c3;
    assert FORK == [FORK[0]] + [FORK[1], FORK[2], FORK[3]];
    RunFirst(env, c, FORK[0], [FORK[1], FORK[2], FORK[3]]);
    RunThree(env, c1, FORK[1], FORK[2], FORK[3]);
  }

  lemma NotAncestor(env: Env)
    requires Fork(env)
    ensures !IsAncestor(env, 2, 4)
  {
    forall n: nat ensures NthParent(env, 4, n) != Some(2) {
      assert n >= 1 ==> NthParent(env, 4, n) == NthParent(env, 3, n - 1);
      assert n >= 2 ==> NthParent(env, 3, n - 1) == NthParent(env, 1, n - 2);
      assert n >= 3 ==> NthParent(env, 1, n - 2) == NthParent(env, 0, n - 3);
    }
  }

  /** On the chain minted from block 0 the head reaches block 2 and later block 4, without restart,
      although block 2 is not an ancestor of block 4. */
  ghost predicate Leaves(env: Env, es: seq<Event>, fs: seq<Event>) {
    && Minted(env, 0) && NoRestart(es) && NoRestart(fs)
    && (var c := Run(env, NewChain(env, 0, 9), es); c.head == Some(2) && Run(env, c, fs).head == Some(4))
    && !IsAncestor(env, 2, 4)
  }

  lemma ForkLeaves(env: Env)
    requires Fork(env) && Minted(env, 0)
    ensures Leaves(env, CLIMB, FORK)
  {
    ClimbRun(env);
    ForkRun(env, Run(env, NewChain(env, 0, 9), CLIMB));
    NotAncestor(env);
  }

  lemma HeadLeavesItsBranch()
    ensures exists env, es, fs :: Leaves(env, es, fs)
  {
    var env := ExampleEnv(PARENTS, HEIGHTS);
    ForkFacts(env);
    ForkLeaves(env);
  }
}
