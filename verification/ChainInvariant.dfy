/**
 What holds in every reachable state of the chain: the shape of the segment graph, and the
 position of the chain head in it.
 */
module ChainInvariant {
  import opened Blocks
  import opened SegmentGraph
  import opened GraphInvariant
  import opened ChainModel

  /** The head lies in the state segment or, after stalled passes, in a segment below it. */
  ghost predicate HeadOk(env: Env, c: Chain) {
    && (c.stateSegment.Some? ==> c.stateSegment.value in c.graph.segs)
    && (c.head.Some? ==> c.stateSegment.Some? && HeadAt(env, c.graph, c.head.value, c.stateSegment.value))
  }

  /** `h` lies in a segment from which segment links lead up to `t`, and the pair above it was
      checked: a pair that failed validation is only ever added below the head. */
  ghost predicate HeadAt(env: Env, g: Graph, h: Ref, t: SegId) {
    && Known(env, h) && Rec(g, h).segment.Some?
    && Leads(g, Rec(g, h).segment.value, t) && CheckedAbove(env, g, Rec(g, h).segment.value, h)
  }

  /** `k` hops down SegmentPrev lead from `t` to `s`. */
  ghost predicate Climbs(g: Graph, s: SegId, t: SegId, k: nat)
    decreases k
  {
    if k == 0 then s == t
    else t in g.segs && g.segs[t].prev.Some? && Climbs(g, s, g.segs[t].prev.value, k - 1)
  }

  ghost predicate Leads(g: Graph, s: SegId, t: SegId) {
    exists k: nat :: Climbs(g, s, t, k)
  }

  lemma {:induction false} ClimbsKept(g: Graph, h: Graph, s: SegId, t: SegId, k: nat)
    requires Evolves(g, h) && Climbs(g, s, t, k)
    ensures Climbs(h, s, t, k)
    decreases k
  {
    if k > 0 {
      assert SegEvolves(g, h, t);
      ClimbsKept(g, h, s, g.segs[t].prev.value, k - 1);
    }
  }

  lemma LeadsKept(g: Graph, h: Graph, s: SegId, t: SegId)
    requires Evolves(g, h) && Leads(g, s, t)
    ensures Leads(h, s, t)
  {
    var k: nat :| Climbs(g, s, t, k);
    ClimbsKept(g, h, s, t, k);
  }

  lemma LeadsForward(env: Env, g: Graph, s: SegId, t: SegId)
    requires Shaped(env, g) && t in g.segs && Leads(g, s, t)
    ensures Leads(g, s, Forward(g, t))
  {
    var k: nat :| Climbs(g, s, t, k);
    var paths :| Shape(env, g, paths);
    assert SegAt(env, g, t, paths);
    assert Forward(g, t) != t ==> Climbs(g, s, Forward(g, t), k + 1);
  }

  ghost predicate CheckedAbove(env: Env, g: Graph, s: SegId, h: Ref) {
    s in g.segs && h == g.segs[s].tail && Rec(g, h).next.Some? ==> Linked(env, h, Rec(g, h).next.value)
  }

  ghost predicate Inv(env: Env, c: Chain) {
    Shaped(env, c.graph) && HeadOk(env, c)
  }

  // ---------------------------------------------------------------------------------------
  // The graph part of each step

  lemma CommitShape(env: Env, g: Graph, ref: Ref, id: SegId, verdict: Verdict)
    requires Shaped(env, g) && id !in g.segs
    ensures Shaped(env, CommitBlock(env, g, ref, id, verdict))
    ensures Evolves(g, CommitBlock(env, g, ref, id, verdict))
  {
    var paths :| Shape(env, g, paths);
    if Known(env, ref) && Rec(g, ref).segment.None? && Parent(env, ref).Some? {
      var parent := Parent(env, ref).value;
      if Known(env, parent) {
        if Rec(g, parent).segment.None? {
          NewSegmentShape(env, g, paths, ref, id);
        } else {
          var s := Rec(g, parent).segment.value;
          if Appendable(env, g, s, ref, parent, verdict) {
            AppendBlockShape(env, g, paths, s, ref, parent, verdict);
          }
        }
      }
    }
  }

  /** The part of RewindOnce up to the report: pop, then rewind. */
  lemma RewindSegmentShape(env: Env, g: Graph, pick: SegId, fetched: bool, verdict: Verdict)
    requires Shaped(env, g) && pick in g.segs
    ensures var h := RewindSegment(env, g, pick, fetched, verdict).graph;
            Shaped(env, h) && Evolves(g, h) && h.queue == g.queue && h.segs.Keys == g.segs.Keys
  {
    var paths :| Shape(env, g, paths);
    assert SegAt(env, g, pick, paths);
    var seg := g.segs[pick];
    if seg.status == Disjointed && fetched && Known(env, seg.tail) && Parent(env, seg.tail).Some? {
      var b := Parent(env, seg.tail).value;
      if Known(env, b) {
        match Rec(g, b).segment
        case None =>
          ExtendTailShape(env, g, paths, pick, b, verdict);
        case Some(q) =>
          if q != pick && q in g.segs && Known(env, g.segs[q].head) {
            AppendSegmentShape(env, g, paths, q, pick, verdict);
          }
      }
    }
  }

  lemma PopShape(env: Env, g: Graph, queue: set<SegId>)
    requires Shaped(env, g) && queue <= g.segs.Keys
    ensures Shaped(env, g.(queue := queue)) && Evolves(g, g.(queue := queue))
  {
    var paths :| Shape(env, g, paths);
    QueueShape(env, g, paths, queue);
  }

  lemma UpdatedShape(env: Env, c: Chain, id: SegId, resolved: bool)
    requires Shaped(env, c.graph)
    ensures var d := HandleSegmentUpdated(env, c, id, resolved);
            Shaped(env, d.graph) && Evolves(c.graph, d.graph) && d.graph.queue == c.graph.queue
              && d.graph.segs.Keys == c.graph.segs.Keys && d.graph.records == c.graph.records
  {
    var paths :| Shape(env, c.graph, paths);
    if id in c.graph.segs && c.graph.segs[id].status == Disjointed {
      MarkValidShape(env, c.graph, paths, id);
    }
  }

  lemma PopRewindShape(env: Env, g: Graph, pick: SegId, fetched: bool, verdict: Verdict)
    requires Shaped(env, g) && pick in g.segs
    ensures var h := RewindSegment(env, PopQueue(g, pick), pick, fetched, verdict).graph;
            Shaped(env, h) && Evolves(g, h) && h.segs.Keys == g.segs.Keys
  {
    var popped := PopQueue(g, pick);
    QueueInSegs(env, g);
    PopShape(env, g, g.queue - {pick});
    RewindSegmentShape(env, popped, pick, fetched, verdict);
    EvolvesTransitive(g, popped, RewindSegment(env, popped, pick, fetched, verdict).graph);
  }

  lemma QueueInSegs(env: Env, g: Graph)
    requires Shaped(env, g)
    ensures g.queue <= g.segs.Keys
  {
  }

  lemma ReportShape(env: Env, c: Chain, t: SegId, resolved: bool)
    requires Shaped(env, c.graph)
    ensures var d := PushIfDisjointed(HandleSegmentUpdated(env, c, t, resolved).graph, t);
            Shaped(env, d) && Evolves(c.graph, d)
  {
    var d := HandleSegmentUpdated(env, c, t, resolved).graph;
    UpdatedShape(env, c, t, resolved);
    QueueInSegs(env, d);
    var queue := PushIfDisjointed(d, t).queue;
    PopShape(env, d, queue);
    EvolvesTransitive(c.graph, d, d.(queue := queue));
  }

  lemma RewindShape(env: Env, c: Chain, pick: SegId, fetched: bool, verdict: Verdict, resolved: bool)
    requires Shaped(env, c.graph) && pick in c.graph.segs
    ensures var d := RewindOnce(env, c, pick, fetched, verdict, resolved);
            Shaped(env, d.graph) && Evolves(c.graph, d.graph)
  {
    PopRewindShape(env, c.graph, pick, fetched, verdict);
    var r := RewindSegment(env, PopQueue(c.graph, pick), pick, fetched, verdict);
    if r.ok {
      var t := RewindTarget(r.graph, pick);
      ReportShape(env, c.(graph := r.graph), t, resolved);
      EvolvesTransitive(c.graph, r.graph, RewindOnce(env, c, pick, fetched, verdict, resolved).graph);
    }
  }

  lemma EvolvesReflexive(g: Graph)
    ensures Evolves(g, g)
  {
  }

  /** Segment shape invariant, for one step: the shape is kept and nothing settled changes. */
  lemma StepShape(env: Env, c: Chain, e: Event)
    requires Shaped(env, c.graph)
    ensures Shaped(env, Step(env, c, e).graph) && Evolves(c.graph, Step(env, c, e).graph)
  {
    EvolvesReflexive(c.graph);
    match e
    case Commit(ref, id, verdict) =>
      if id !in c.graph.segs { CommitShape(env, c.graph, ref, id, verdict); }
    case Rewind(pick, fetched, verdict, resolved) =>
      if pick in c.graph.queue && pick in c.graph.segs { RewindShape(env, c, pick, fetched, verdict, resolved); }
    case Manage(now, later) =>
    case Stall =>
    case Restart(_, _) =>
      PopShape(env, c.graph, {});
  }

  // ---------------------------------------------------------------------------------------
  // The head part of each step

  lemma CommitHead(env: Env, c: Chain, ref: Ref, id: SegId, verdict: Verdict)
    requires Inv(env, c) && id !in c.graph.segs
    ensures HeadOk(env, c.(graph := CommitBlock(env, c.graph, ref, id, verdict)))
  {
    CommitShape(env, c.graph, ref, id, verdict);
    if c.head.Some? {
      LeadsKept(c.graph, CommitBlock(env, c.graph, ref, id, verdict), Rec(c.graph, c.head.value).segment.value,
        c.stateSegment.value);
    }
  }

  lemma RewindSegmentHead(env: Env, c: Chain, pick: SegId, fetched: bool, verdict: Verdict)
    requires Inv(env, c) && pick in c.graph.segs
    ensures HeadOk(env, c.(graph := RewindSegment(env, PopQueue(c.graph, pick), pick, fetched, verdict).graph))
  {
    var g := RewindSegment(env, PopQueue(c.graph, pick), pick, fetched, verdict).graph;
    PopRewindShape(env, c.graph, pick, fetched, verdict);
    if c.head.Some? {
      LeadsKept(c.graph, g, Rec(c.graph, c.head.value).segment.value, c.stateSegment.value);
    }
  }

  /** Putting the head at the head of a segment is always sound. */
  lemma SetHeadOk(env: Env, c: Chain, id: SegId)
    requires Shaped(env, c.graph) && id in c.graph.segs
    ensures HeadOk(env, SetHeadBlock(env, c, c.graph.segs[id].head))
    ensures Known(env, c.graph.segs[id].head) && Rec(c.graph, c.graph.segs[id].head) == Record(Some(id), None)
  {
    assert Climbs(c.graph, id, id, 0);
    var paths :| Shape(env, c.graph, paths);
    assert SegAt(env, c.graph, id, paths);
  }

  lemma ReportHead(env: Env, c: Chain, t: SegId, resolved: bool)
    requires Inv(env, c)
    ensures HeadOk(env, HandleSegmentUpdated(env, c, t, resolved))
  {
    UpdatedShape(env, c, t, resolved);
    var d := HandleSegmentUpdated(env, c, t, resolved);
    if d != c {
      SetHeadOk(env, c.(graph := MarkValid(c.graph, t)), t);
    }
  }

  lemma PushHead(env: Env, c: Chain, t: SegId)
    requires Inv(env, c)
    ensures HeadOk(env, c.(graph := PushIfDisjointed(c.graph, t)))
  {
    QueueInSegs(env, c.graph);
    PopShape(env, c.graph, PushIfDisjointed(c.graph, t).queue);
    if c.head.Some? {
      LeadsKept(c.graph, PushIfDisjointed(c.graph, t), Rec(c.graph, c.head.value).segment.value, c.stateSegment.value);
    }
  }

  lemma RewindHead(env: Env, c: Chain, pick: SegId, fetched: bool, verdict: Verdict, resolved: bool)
    requires Inv(env, c) && pick in c.graph.segs
    ensures HeadOk(env, RewindOnce(env, c, pick, fetched, verdict, resolved))
  {
    PopRewindShape(env, c.graph, pick, fetched, verdict);
    RewindSegmentHead(env, c, pick, fetched, verdict);
    var r := RewindSegment(env, PopQueue(c.graph, pick), pick, fetched, verdict);
    if r.ok {
      var c1 := c.(graph := r.graph);
      var t := RewindTarget(r.graph, pick);
      ReportHead(env, c1, t, resolved);
      UpdatedShape(env, c1, t, resolved);
      var d := HandleSegmentUpdated(env, c1, t, resolved);
      PushHead(env, d, t);
    }
  }

  lemma ForwardInSegs(env: Env, g: Graph, s: SegId)
    requires Shaped(env, g) && s in g.segs
    ensures Forward(g, s) in g.segs
  {
    var paths :| Shape(env, g, paths);
    assert SegAt(env, g, s, paths);
  }

  lemma ManageHead(env: Env, c: Chain, now: int, later: int)
    requires Inv(env, c) && c.stateSegment.Some?
    ensures HeadOk(env, ManageStateOnce(env, c, now, later))
    ensures ManageStateOnce(env, c, now, later).head == Some(c.graph.segs[Forward(c.graph, c.stateSegment.value)].head)
  {
    var s := c.stateSegment.value;
    ForwardInSegs(env, c.graph, s);
    var t := Forward(c.graph, s);
    SetHeadOk(env, c.(stateSegment := Some(t)), t);
    var d := ManageStateOnce(env, c, now, later);
    assert d.graph == c.graph && d.head == Some(c.graph.segs[t].head);
  }

  lemma StallHead(env: Env, c: Chain)
    requires Inv(env, c)
    ensures HeadOk(env, FastForward(c))
  {
    if c.stateSegment.Some? {
      ForwardInSegs(env, c.graph, c.stateSegment.value);
      if c.head.Some? {
        LeadsForward(env, c.graph, Rec(c.graph, c.head.value).segment.value, c.stateSegment.value);
      }
    }
  }

  lemma StepInv(env: Env, c: Chain, e: Event)
    requires Inv(env, c)
    ensures Inv(env, Step(env, c, e))
  {
    StepShape(env, c, e);
    match e
    case Commit(ref, id, verdict) =>
      if id !in c.graph.segs { CommitHead(env, c, ref, id, verdict); }
    case Rewind(pick, fetched, verdict, resolved) =>
      if pick in c.graph.queue && pick in c.graph.segs { RewindHead(env, c, pick, fetched, verdict, resolved); }
    case Manage(now, later) =>
      if c.stateSegment.Some? { ManageHead(env, c, now, later); }
    case Stall =>
      StallHead(env, c);
    case Restart(_, _) =>
  }

  lemma EmptyInv(env: Env)
    ensures Inv(env, EMPTY)
  {
    var g, paths: Paths := EMPTY.graph, map[];
    assert forall id :: SegAt(env, g, id, paths);
    assert forall r :: RecordOk(g, r, paths);
    assert Shape(env, g, paths);
  }

  lemma NewChainInv(env: Env, genesis: Ref, id: SegId)
    requires Minted(env, genesis)
    ensures Inv(env, NewChain(env, genesis, id))
  {
    EmptyInv(env);
    var paths :| Shape(env, EMPTY.graph, paths);
    NewSegmentShape(env, EMPTY.graph, paths, genesis, id);
    assert Climbs(NewChain(env, genesis, id).graph, id, id, 0);
  }

  /** Everything reachable, from any good state and through any events, is good. */
  lemma {:induction false} RunInv(env: Env, c: Chain, es: seq<Event>)
    requires Inv(env, c)
    ensures Inv(env, Run(env, c, es))
    ensures Evolves(c.graph, Run(env, c, es).graph)
    decreases |es|
  {
    if es == [] {
      EvolvesReflexive(c.graph);
    } else {
      var fs := es[..|es| - 1];
      RunInv(env, c, fs);
      StepInv(env, Run(env, c, fs), es[|es| - 1]);
      StepShape(env, Run(env, c, fs), es[|es| - 1]);
      EvolvesTransitive(c.graph, Run(env, c, fs).graph, Run(env, c, es).graph);
    }
  }

  /** The states a node starts from: an empty database, or a freshly minted chain. */
  ghost predicate Initial(env: Env, c: Chain) {
    c == EMPTY || exists genesis, id :: Minted(env, genesis) && c == NewChain(env, genesis, id)
  }

  lemma InitialInv(env: Env, c: Chain)
    requires Initial(env, c)
    ensures Inv(env, c)
  {
    if c == EMPTY {
      EmptyInv(env);
    } else {
      var genesis, id :| Minted(env, genesis) && c == NewChain(env, genesis, id);
      NewChainInv(env, genesis, id);
    }
  }

  lemma InitialRunInv(env: Env, init: Chain, es: seq<Event>)
    requires Initial(env, init)
    ensures Inv(env, Run(env, init, es))
  {
    InitialInv(env, init);
    RunInv(env, init, es);
  }

  // ---------------------------------------------------------------------------------------
  // The state segment

  /** A segment that can no longer take a refused block in below: settled as VALID, attached to a
      predecessor, or ending at a block without parent. */
  ghost predicate Settled(env: Env, seg: Seg) {
    seg.status == Valid || seg.prev.Some? || (Parent(env, seg.tail).None? && seg.status != Invalid)
  }

  ghost predicate SettledAt(env: Env, g: Graph, s: Option<SegId>) {
    s.Some? && s.value in g.segs ==> Settled(env, g.segs[s.value])
  }

  /** The state segment and the head's own segment are settled. */
  ghost predicate StateSettled(env: Env, c: Chain) {
    && SettledAt(env, c.graph, c.stateSegment)
    && (c.head.Some? ==> SettledAt(env, c.graph, Rec(c.graph, c.head.value).segment))
  }

  lemma CommitSettled(env: Env, g: Graph, ref: Ref, id: SegId, verdict: Verdict, s: SegId)
    requires s in g.segs && id !in g.segs && Settled(env, g.segs[s])
    ensures var h := CommitBlock(env, g, ref, id, verdict); s in h.segs && Settled(env, h.segs[s])
  {
  }

  lemma RewindSegmentSettled(env: Env, g: Graph, pick: SegId, fetched: bool, verdict: Verdict, s: SegId)
    requires Shaped(env, g) && pick in g.segs && s in g.segs && Settled(env, g.segs[s])
    ensures var h := RewindSegment(env, g, pick, fetched, verdict).graph; s in h.segs && Settled(env, h.segs[s])
  {
    var paths :| Shape(env, g, paths);
    assert SegAt(env, g, s, paths);
  }

  lemma RewindSettled(env: Env, c: Chain, pick: SegId, fetched: bool, verdict: Verdict, resolved: bool, s: SegId)
    requires Shaped(env, c.graph) && pick in c.graph.segs && s in c.graph.segs && Settled(env, c.graph.segs[s])
    ensures var d := RewindOnce(env, c, pick, fetched, verdict, resolved);
            s in d.graph.segs && Settled(env, d.graph.segs[s])
  {
    var g := PopQueue(c.graph, pick);
    QueueInSegs(env, c.graph);
    PopShape(env, c.graph, g.queue);
    RewindSegmentSettled(env, g, pick, fetched, verdict, s);
  }

  /** A settled segment stays settled. */
  lemma SettledKept(env: Env, c: Chain, e: Event, s: SegId)
    requires Inv(env, c) && s in c.graph.segs && Settled(env, c.graph.segs[s])
    ensures s in Step(env, c, e).graph.segs && Settled(env, Step(env, c, e).graph.segs[s])
  {
    match e
    case Commit(ref, id, verdict) =>
      if id !in c.graph.segs { CommitSettled(env, c.graph, ref, id, verdict, s); }
    case Rewind(pick, fetched, verdict, resolved) =>
      if pick in c.graph.queue && pick in c.graph.segs {
        RewindSettled(env, c, pick, fetched, verdict, resolved, s);
      }
    case Manage(now, later) =>
      assert ManageStateOnce(env, c, now, later).graph == c.graph;
    case Stall =>
    case Restart(_, _) =>
  }

  lemma ForwardSettled(env: Env, g: Graph, s: SegId)
    requires Shaped(env, g) && s in g.segs && Settled(env, g.segs[s])
    ensures Forward(g, s) in g.segs && Settled(env, g.segs[Forward(g, s)])
  {
    var paths :| Shape(env, g, paths);
    assert SegAt(env, g, s, paths);
  }

  /** A segment adopted as the state segment is VALID. */
  lemma AdoptionSettled(env: Env, c: Chain, pick: SegId, r: Rewound, resolved: bool)
    requires Shaped(env, r.graph) && ReportRewound(env, c, pick, r, resolved).head != c.head
    ensures StateSettled(env, ReportRewound(env, c, pick, r, resolved))
  {
    SetHeadOk(env, c.(graph := r.graph), RewindTarget(r.graph, pick));
  }

  lemma StateSettledKept(env: Env, c: Chain, e: Event)
    requires Inv(env, c) && StateSettled(env, c)
    ensures StateSettled(env, c.(graph := Step(env, c, e).graph))
  {
    var d := Step(env, c, e);
    StepShape(env, c, e);
    if c.stateSegment.Some? { SettledKept(env, c, e, c.stateSegment.value); }
    if c.head.Some? {
      HeadOwner(env, c);
      SettledKept(env, c, e, Rec(c.graph, c.head.value).segment.value);
      assert RecordEvolves(Rec(c.graph, c.head.value), Rec(d.graph, c.head.value));
    }
  }

  lemma StepSettled(env: Env, c: Chain, e: Event)
    requires Inv(env, c) && StateSettled(env, c)
    ensures StateSettled(env, Step(env, c, e))
  {
    var d := Step(env, c, e);
    StateSettledKept(env, c, e);
    if e.Rewind? && d.head != c.head {
      PopRewindShape(env, c.graph, e.pick, e.fetched, e.verdict);
      AdoptionSettled(env, c, e.pick, RewindSegment(env, PopQueue(c.graph, e.pick), e.pick, e.fetched, e.verdict),
        e.resolved);
    } else if (e.Manage? || e.Stall?) && c.stateSegment.Some? {
      ForwardSettled(env, c.graph, c.stateSegment.value);
      SetHeadOk(env, c, Forward(c.graph, c.stateSegment.value));
      if e.Manage? { ManageHead(env, c, e.now, e.later); }
    }
  }

  lemma HeadOwner(env: Env, c: Chain)
    requires Inv(env, c) && c.head.Some?
    ensures Rec(c.graph, c.head.value).segment.Some? && Rec(c.graph, c.head.value).segment.value in c.graph.segs
  {
    var paths :| Shape(env, c.graph, paths);
    assert RecordOk(c.graph, c.head.value, paths);
  }

  /** In every run of a node the state segment and the head's own segment are settled: either may be
      INVALID, but only once it is attached, with all its links checked. */
  lemma {:induction false} RunSettled(env: Env, c: Chain, es: seq<Event>)
    requires Initial(env, c)
    ensures StateSettled(env, Run(env, c, es))
    decreases |es|
  {
    if es != [] {
      RunSettled(env, c, es[..|es| - 1]);
      InitialRunInv(env, c, es[..|es| - 1]);
      StepSettled(env, Run(env, c, es[..|es| - 1]), es[|es| - 1]);
    }
  }
}
