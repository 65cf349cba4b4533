/**
 Runs in which a node without head adopts a segment: a restarted node that changes branch and votes
 twice in one round, and a fresh node that follows a chain with another genesis.
 */
module AdoptionRuns {
  import opened Blocks
  import opened SegmentGraph
  import opened ChainModel
  import opened Restarts
  import opened Proposals
  import opened Guards
  import opened NodeVotes
  import opened Examples

  // ---------------------------------------------------------------------------------------
  // The snapshot of round 0

  ghost function SnapAt(env: Env, r: Ref): Snapshot
    requires Timed(env, r)
  {
    MakeSnapshot(env, r, CONFIG, Height(env, r) + 1, 0, SECOND)
  }

  const TICK := Manage(0, SECOND)

  /** The state segment ends at block `r` and nothing was emitted in this life. */
  ghost predicate OnTop(env: Env, c: Chain, s: SegId, r: Ref) {
    && c.stateSegment == Some(s) && s in c.graph.segs && c.graph.segs[s].next.None? && c.graph.segs[s].head == r
    && Rec(c.graph, r).segment == Some(s) && c.emitted == []
    && (c.head == Some(r) ==> c.lastHeight == Height(env, r) + 1 && c.lastRound == 0)
  }

  lemma TickEmits(env: Env, c: Chain, s: SegId, r: Ref)
    requires Timed(env, r) && OnTop(env, c, s, r)
    ensures var d := Step(env, c, TICK);
            d.graph == c.graph && d.head == Some(r) && d.stateSegment == Some(s) && d.emitted == [SnapAt(env, r)]
  {
  }

  // ---------------------------------------------------------------------------------------
  // A fork: blocks 1 and 2 name block 0, block 3 names block 2, block 4 names block 1

  const TWIG := [None, Some(0), Some(0), Some(2), Some(1)]
  const TWIG_HEIGHTS := [0, 1, 1, 2, 2]

  /** On block 3 another validator is selected. */
  function TwigEnv(): Env {
    ExampleEnvWith(TWIG, TWIG_HEIGHTS, 100,
                   (vs: seq<Validator>, r: Ref, h: nat, n: nat) => if r == 3 then Some(OTHER) else Some(SELECTED))
  }

  ghost predicate Twig(env: Env) {
    && Minted(env, 0) && (forall r :: 0 <= r <= 4 ==> Timed(env, r))
    && Parent(env, 0) == None && Parent(env, 1) == Some(0) && Parent(env, 2) == Some(0) && Parent(env, 3) == Some(2)
    && Parent(env, 4) == Some(1)
    && Height(env, 1) == 1 && Height(env, 2) == 1 && Height(env, 3) == 2 && Height(env, 4) == 2
    && Linked(env, 0, 1) && Linked(env, 1, 4) && Linked(env, 2, 3)
  }

  lemma TwigFacts()
    ensures Twig(TwigEnv())
  {
    ExampleFacts(TwigEnv(), TWIG, TWIG_HEIGHTS);
  }

  lemma TwigHeights()
    ensures WellHeighted(TwigEnv())
  {
    var env := TwigEnv();
    forall r, p | Known(env, r) && Known(env, p) && Parent(env, r) == Some(p)
      ensures Height(env, r) == Height(env, p) + 1
    {
      assert Parent(env, r) == TWIG[r] && Height(env, r) == TWIG_HEIGHTS[r];
    }
  }

  const START := Graph(map[0 := Record(Some(9), None)], map[9 := Seg(9, Disjointed, 0, 0, 0, None, None)], {9})

  function Grown1(): Graph {
    Graph(map[0 := Record(Some(9), Some(1)), 1 := Record(Some(9), None)],
          map[9 := Seg(9, Disjointed, 1, 0, 0, None, None)], {9})
  }

  function Grown(): Graph {
    Graph(map[0 := Record(Some(9), Some(1)), 1 := Record(Some(9), Some(4)), 4 := Record(Some(9), None)],
          map[9 := Seg(9, Disjointed, 4, 0, 0, None, None)], {9})
  }

  /** After the restart, block 3 opens segment 21. */
  function Reopened(): Graph {
    Graph(Grown().records[3 := Record(Some(21), None)],
          Grown().segs[21 := Seg(21, Disjointed, 3, 3, 2, None, None)], {21})
  }

  lemma Grow(env: Env)
    requires Twig(env)
    ensures CommitBlock(env, START, 1, 20, OK) == Grown1() && CommitBlock(env, Grown1(), 4, 20, OK) == Grown()
  {
    assert CommitBlock(env, START, 1, 20, OK) == AppendBlock(env, START, 9, 1, 0, OK);
    assert CommitBlock(env, Grown1(), 4, 20, OK) == AppendBlock(env, Grown1(), 9, 4, 1, OK);
  }

  lemma Reopen(env: Env, g: Graph)
    requires Twig(env) && g == Grown().(queue := {})
    ensures CommitBlock(env, g, 3, 21, OK) == Reopened()
  {
    assert Rec(g, 2).segment.None?;
    assert {} + {21} == {21};
    assert CommitBlock(env, g, 3, 21, OK) == NewSegment(env, g, 3, 21);
  }

  const PULL := Rewind(21, true, OK, true)

  /** The rewind pulls in block 2, and the node adopts the segment. */
  lemma Adopt(env: Env, c: Chain)
    requires Twig(env) && c.graph == Reopened() && c.head.None? && c.emitted == []
    ensures Step(env, c, PULL).head == Some(3) && OnTop(env, Step(env, c, PULL), 21, 3)
  {
    var g := PopQueue(Reopened(), 21);
    assert Rec(g, 2).segment.None? && Timed(env, 2) && Timed(env, 3);
    assert RewindSegment(env, g, 21, true, OK) == Rewound(ExtendTail(env, g, 21, 2, OK), true);
  }

  lemma NotOnBranch(env: Env)
    requires Twig(env)
    ensures !IsAncestor(env, 4, 3)
  {
    forall n: nat ensures NthParent(env, 3, n) != Some(4) {
      assert n >= 1 ==> NthParent(env, 3, n) == NthParent(env, 2, n - 1);
      assert n >= 2 ==> NthParent(env, 2, n - 1) == NthParent(env, 0, n - 2);
    }
  }

  // ---------------------------------------------------------------------------------------
  // The run, with the snapshots emitted on the way and the last head

  ghost predicate Journey(env: Env, c: Chain, d: Chain, snaps: set<Snapshot>, last: Ref)
    requires c.head.Some?
  {
    exists es :: Travels(env, c, d, snaps, last, es)
  }

  ghost predicate Travels(env: Env, c: Chain, d: Chain, snaps: set<Snapshot>, last: Ref, es: seq<Event>)
    requires c.head.Some?
  {
    Run(env, c, es) == d && snaps <= AllEmitted(env, c, es) && LastHead(env, c, es) == last
  }

  lemma TravelsOn(env: Env, c: Chain, d: Chain, snaps: set<Snapshot>, last: Ref, es: seq<Event>, e: Event)
    requires c.head.Some? && Travels(env, c, d, snaps, last, es)
    ensures var f := Step(env, d, e);
            && Run(env, c, es + [e]) == f && LastHead(env, c, es + [e]) == NextAnchor(env, d, e, last)
            && snaps + (set snap | snap in f.emitted) <= AllEmitted(env, c, es + [e])
            && (StaysOnBranch(env, c, es + [e]) ==> IsAncestor(env, last, NextAnchor(env, d, e, last)))
  {
    var fs := es + [e];
    assert fs[..|fs| - 1] == es;
  }

  lemma JourneyNext(env: Env, c: Chain, d: Chain, snaps: set<Snapshot>, last: Ref, e: Event, f: Chain)
    requires c.head.Some? && Journey(env, c, d, snaps, last) && Step(env, d, e) == f
    ensures Journey(env, c, f, snaps + (set snap | snap in f.emitted), NextAnchor(env, d, e, last))
  {
    var es :| Travels(env, c, d, snaps, last, es);
    TravelsOn(env, c, d, snaps, last, es, e);
    assert Travels(env, c, f, snaps + (set snap | snap in f.emitted), NextAnchor(env, d, e, last), es + [e]);
  }

  lemma GrowRun(env: Env)
    requires Twig(env)
    ensures var c := NewChain(env, 0, 9); Journey(env, c, c.(graph := Grown()), {}, 0)
  {
    var c0 := NewChain(env, 0, 9);
    assert c0.graph.queue == {9};
    assert c0.graph == START;
    Grow(env);
    assert Travels(env, c0, c0, {}, 0, []);
    var c1, c2 := c0.(graph := Grown1()), c0.(graph := Grown());
    JourneyNext(env, c0, c0, {}, 0, Commit(1, 20, OK), c1);
    assert {} + (set snap | snap in c1.emitted) == {};
    JourneyNext(env, c0, c1, {}, 0, Commit(4, 20, OK), c2);
    assert {} + (set snap | snap in c2.emitted) == {};
  }

  lemma FirstLife(env: Env) returns (c: Chain)
    requires Twig(env)
    ensures Journey(env, NewChain(env, 0, 9), c, {SnapAt(env, 4)}, 4) && c.graph == Grown() && c.head == Some(4)
  {
    var c0 := NewChain(env, 0, 9);
    var c2 := c0.(graph := Grown());
    GrowRun(env);
    TickEmits(env, c2, 9, 4);
    c := Step(env, c2, TICK);
    JourneyNext(env, c0, c2, {}, 0, TICK, c);
    assert {} + (set snap | snap in c.emitted) == {SnapAt(env, 4)};
  }

  /** The state before the rewind that adopts. */
  lemma SecondLife(env: Env) returns (c: Chain)
    requires Twig(env)
    ensures Journey(env, NewChain(env, 0, 9), c, {SnapAt(env, 4)}, 4)
    ensures c.graph == Reopened() && c.head.None? && c.emitted == []
  {
    var c0 := NewChain(env, 0, 9);
    var c1 := FirstLife(env);
    var c2 := Step(env, c1, Restart(0, 0));
    JourneyNext(env, c0, c1, {SnapAt(env, 4)}, 4, Restart(0, 0), c2);
    assert {SnapAt(env, 4)} + (set snap | snap in c2.emitted) == {SnapAt(env, 4)};
    Reopen(env, c2.graph);
    c := c2.(graph := Reopened());
    JourneyNext(env, c0, c2, {SnapAt(env, 4)}, 4, Commit(3, 21, OK), c);
    assert {SnapAt(env, 4)} + (set snap | snap in c.emitted) == {SnapAt(env, 4)};
  }

  /** Honest heights do not keep a restarted node on its branch: the condition of NoRollbackIff can fail. */
  lemma AdoptionLeavesBranch()
    ensures exists env, es :: WellHeighted(env) && Minted(env, 0) && !StaysOnBranch(env, NewChain(env, 0, 9), es)
  {
    var env := TwigEnv();
    TwigFacts();
    TwigHeights();
    var c0 := NewChain(env, 0, 9);
    var c := SecondLife(env);
    Adopt(env, c);
    NotOnBranch(env);
    var es :| Travels(env, c0, c, {SnapAt(env, 4)}, 4, es);
    TravelsOn(env, c0, c, {SnapAt(env, 4)}, 4, es, PULL);
    assert !StaysOnBranch(env, c0, es + [PULL]);
  }

  // ---------------------------------------------------------------------------------------
  // Two votes in one round

  lemma BothLives(env: Env)
    requires Twig(env)
    ensures exists c, last :: Journey(env, NewChain(env, 0, 9), c, {SnapAt(env, 4), SnapAt(env, 3)}, last)
  {
    var c0 := NewChain(env, 0, 9);
    var c1 := SecondLife(env);
    Adopt(env, c1);
    var c2 := Step(env, c1, PULL);
    JourneyNext(env, c0, c1, {SnapAt(env, 4)}, 4, PULL, c2);
    assert {SnapAt(env, 4)} + (set snap | snap in c2.emitted) == {SnapAt(env, 4)};
    TickEmits(env, c2, 21, 3);
    var c3 := Step(env, c2, TICK);
    var last := NextAnchor(env, c1, PULL, 4);
    JourneyNext(env, c0, c2, {SnapAt(env, 4)}, last, TICK, c3);
    assert {SnapAt(env, 4)} + (set snap | snap in c3.emitted) == {SnapAt(env, 4), SnapAt(env, 3)};
  }

  ghost predicate TwoVotes(env: Env, es: seq<Event>, ds: seq<Delivery>, key: Key) {
    FromRun(ds, AllEmitted(env, NewChain(env, 0, 9), es)) && !Distinct(Votes(key, ds))
  }

  /** Key 5 proposes on block 4 and, in the next life, votes on a proposal for block 3. */
  lemma TwoVotesIn(env: Env)
    requires Twig(env) && Clash(5, SnapAt(env, 4), SnapAt(env, 3))
    ensures exists es, ds :: TwoVotes(env, es, ds, 5)
  {
    BothLives(env);
    var a, b := SnapAt(env, 4), SnapAt(env, 3);
    var c, last :| Journey(env, NewChain(env, 0, 9), c, {a, b}, last);
    var es :| Travels(env, NewChain(env, 0, 9), c, {a, b}, last, es);
    VotesTwice(a, b, 5);
    var votes := Votes(5, Twice(a, b));
    assert votes[0] == votes[1];
    assert TwoVotes(env, es, Twice(a, b), 5);
  }

  lemma TwigSnaps()
    ensures Twig(TwigEnv()) && Clash(5, SnapAt(TwigEnv(), 4), SnapAt(TwigEnv(), 3))
  {
    TwigFacts();
    assert SnapAt(TwigEnv(), 3).validators[0].pubKey == 5;
  }

  /** A node that changed branch can vote twice for one height and round: the two roles keep separate
      guards, and the branches have different proposers. */
  lemma TwoVotesAfterAdoption()
    ensures exists env, es, ds, key :: WellHeighted(env) && Minted(env, 0) && TwoVotes(env, es, ds, key)
  {
    TwigSnaps();
    TwigHeights();
    TwoVotesIn(TwigEnv());
  }

  // ---------------------------------------------------------------------------------------
  // Another genesis: blocks 0, 1, 2 in a line, under a genesis reference that is not the node's

  function ForeignEnv(): Env {
    ExampleEnvWith([None, Some(0), Some(1)], [0, 1, 2], 99,
                   (vs: seq<Validator>, r: Ref, h: nat, n: nat) => Some(SELECTED))
  }

  ghost predicate Foreign(env: Env) {
    && Timed(env, 1) && Timed(env, 2) && Parent(env, 2) == Some(1) && Height(env, 1) == 1 && Height(env, 2) == 2
    && Linked(env, 1, 2) && env.genesisRef == 99 && env.select(VALIDATORS, 2, 3, 0) == Some(SELECTED)
    && env.parseKey(5) == Some(5) && SelectionIgnoresOrder(env)
  }

  lemma ForeignFacts()
    ensures Foreign(ForeignEnv())
  {
    ExampleFacts(ForeignEnv(), [None, Some(0), Some(1)], [0, 1, 2]);
  }

  const FOLLOW := [Commit(2, 21, OK), PULL, TICK]

  lemma ForeignRun(env: Env)
    requires Foreign(env)
    ensures SnapAt(env, 2) in Run(env, EMPTY, FOLLOW).emitted
  {
    RunThree(env, EMPTY, Commit(2, 21, OK), PULL, TICK);
    var c := Step(env, EMPTY, Commit(2, 21, OK));
    assert c.graph == NewSegment(env, EMPTY.graph, 2, 21);
    var g := PopQueue(c.graph, 21);
    assert Rec(g, 1).segment.None?;
    assert RewindSegment(env, g, 21, true, OK) == Rewound(ExtendTail(env, g, 21, 1, OK), true);
    var d := Step(env, c, PULL);
    assert d.head == Some(2) && OnTop(env, d, 21, 2);
    TickEmits(env, d, 21, 2);
  }

  /** Nothing compares the genesis reference of an adopted segment with the node's: a fresh node can
      follow another chain, be its proposer, and build a block that its own checks refuse. */
  lemma ForeignProposalRefused()
    ensures exists env, es, snap, key, self, now ::
              && SelectionIgnoresOrder(env) && snap in Run(env, EMPTY, es).emitted
              && ProposesFor(env, es, snap, key, self, now) && Known(env, snap.lastBlockRef)
              && !HeaderFits(env, snap.lastBlockRef, MakeProposal(env, snap, self, now, 0))
  {
    var env := ForeignEnv();
    ForeignFacts();
    ForeignRun(env);
    var snap := SnapAt(env, 2);
    assert ProposesFor(env, FOLLOW, snap, 5, 5, 0);
    assert HeaderOf(env, 2).genesisRef != env.genesisRef;
  }

  // ---------------------------------------------------------------------------------------
  // Adopting at the genesis block, and under another configuration with the same validators

  /** The node's head is block `r`, which it adopted with a segment that ends at block `r - 1`. */
  ghost predicate AdoptedAt(d: Chain, r: Ref) {
    && d.head == Some(r) && d.stateSegment == Some(21) && 21 in d.graph.segs
    && d.graph.segs[21].status == Valid && d.graph.segs[21].head == r && d.graph.segs[21].tail == r - 1
  }

  /** Block `r` arrives at a fresh node, and block `r - 1` is pulled in below it. */
  ghost predicate Pair(env: Env, r: Ref) {
    && Known(env, r) && Known(env, r - 1) && Parent(env, r) == Some(r - 1) && Linked(env, r - 1, r)
    && Height(env, r - 1) == r - 1
  }

  lemma PairRun(env: Env, r: Ref)
    requires Pair(env, r)
    requires Trustworthy(env, Seg(21, Disjointed, r, r - 1, Height(env, r - 1), None, None))
    ensures Reaches(env, EMPTY, Step(env, Step(env, EMPTY, Commit(r, 21, OK)), PULL))
    ensures AdoptedAt(Step(env, Step(env, EMPTY, Commit(r, 21, OK)), PULL), r)
  {
    var c := Step(env, EMPTY, Commit(r, 21, OK));
    assert c.graph == NewSegment(env, EMPTY.graph, r, 21);
    var g := PopQueue(c.graph, 21);
    assert Rec(g, r - 1).segment.None?;
    assert RewindSegment(env, g, 21, true, OK) == Rewound(ExtendTail(env, g, 21, r - 1, OK), true);
    ReachStart(env, EMPTY);
    ReachNext(env, EMPTY, EMPTY, Commit(r, 21, OK), c);
    ReachNext(env, EMPTY, c, PULL, Step(env, c, PULL));
  }

  /** A fresh node that reaches the genesis block under the initial configuration takes the branch over. */
  lemma GenesisAdopted()
    ensures exists env, d :: Minted(env, 0) && Reaches(env, EMPTY, d) && AdoptedAt(d, 1)
  {
    var env := ExampleEnv([None, Some(0)], [0, 1]);
    ExampleFacts(env, [None, Some(0)], [0, 1]);
    assert Timed(env, 0);
    PairRun(env, 1);
  }

  /** The initial configuration is another one than the blocks', with the same validator set. */
  ghost predicate OtherConfig(env: Env, r: Ref) {
    && Known(env, r) && HeaderOf(env, r).chainConfigRef != env.initConfigRef
    && SameSet(env, env.initConfigRef, HeaderOf(env, r).chainConfigRef)
  }

  function OtherConfigEnv(): Env {
    ExampleEnv([None, Some(0), Some(1)], [0, 1, 2]).(initConfigRef := 111, configs := map[101 := CONFIG, 111 := CONFIG])
  }

  lemma OtherConfigFacts()
    ensures Pair(OtherConfigEnv(), 2) && OtherConfig(OtherConfigEnv(), 1) && OtherConfig(OtherConfigEnv(), 2)
    ensures Pair(OtherConfigEnv(), 1)
  {
  }

  /** Above height 0 the same validators are enough. */
  lemma SameValidatorsAdopted()
    ensures exists env, d :: OtherConfig(env, 1) && OtherConfig(env, 2) && Reaches(env, EMPTY, d) && AdoptedAt(d, 2)
  {
    OtherConfigFacts();
    PairRun(OtherConfigEnv(), 2);
  }

  /** At height 0 they are not. */
  lemma OtherGenesisRefused()
    ensures exists env, c :: && Pair(env, 1) && OtherConfig(env, 0) && Reaches(env, EMPTY, c)
                             && 21 in c.graph.segs && c.graph.segs[21].tail == 0 && c.head.None?
  {
    var env := OtherConfigEnv();
    OtherConfigFacts();
    var c := Step(env, EMPTY, Commit(1, 21, OK));
    assert c.graph == NewSegment(env, EMPTY.graph, 1, 21);
    var g := PopQueue(c.graph, 21);
    assert Rec(g, 0).segment.None?;
    assert RewindSegment(env, g, 21, true, OK) == Rewound(ExtendTail(env, g, 21, 0, OK), true);
    ReachStart(env, EMPTY);
    ReachNext(env, EMPTY, EMPTY, Commit(1, 21, OK), c);
    ReachNext(env, EMPTY, c, PULL, Step(env, c, PULL));
    assert OtherConfig(env, 0);
  }
}
