/**
 The rewind queue: rewinding always terminates, and no segment is forgotten except by a
 rewind that fails or by a restart.
 */
module QueueTheorems {
  import opened Blocks
  import opened SegmentGraph
  import opened GraphInvariant
  import opened ChainModel
  import opened ChainInvariant
  import opened HeadTheorems

  // ---------------------------------------------------------------------------------------
  // Sums over the queue

  ghost function Weight(g: Graph, id: SegId): nat {
    if id in g.segs then g.segs[id].tailHeight + 1 else 0
  }

  ghost function Load(g: Graph, queue: set<SegId>): nat {
    if queue == {} then 0
    else
      assert (forall x :: x !in queue) ==> queue == {};
      var id :| id in queue;
      Weight(g, id) + Load(g, queue - {id})
  }

  lemma {:induction false} LoadRemove(g: Graph, queue: set<SegId>, id: SegId)
    requires id in queue
    ensures Load(g, queue) == Weight(g, id) + Load(g, queue - {id})
    decreases queue
  {
    var x :| x in queue && Load(g, queue) == Weight(g, x) + Load(g, queue - {x});
    if x != id {
      LoadRemove(g, queue - {x}, id);
      LoadRemove(g, queue - {id}, x);
      assert queue - {x} - {id} == queue - {id} - {x};
    }
  }

  lemma {:induction false} LoadSame(g: Graph, h: Graph, queue: set<SegId>)
    requires forall id :: id in queue ==> Weight(g, id) == Weight(h, id)
    ensures Load(g, queue) == Load(h, queue)
    decreases queue
  {
    if queue != {} {
      assert (forall x :: x !in queue) ==> queue == {};
      var x :| x in queue;
      LoadRemove(g, queue, x);
      LoadRemove(h, queue, x);
      LoadSame(g, h, queue - {x});
    }
  }

  lemma LoadAdd(g: Graph, queue: set<SegId>, id: SegId)
    ensures Load(g, queue + {id}) <= Load(g, queue) + Weight(g, id)
  {
    if id in queue {
      assert queue + {id} == queue;
    } else {
      LoadRemove(g, queue + {id}, id);
      assert queue + {id} - {id} == queue;
    }
  }

  // ---------------------------------------------------------------------------------------
  // Every rewind lowers the load

  lemma RewindSegmentWeights(env: Env, g: Graph, pick: SegId, fetched: bool, verdict: Verdict, id: SegId)
    requires pick in g.segs && id != pick
    ensures Weight(RewindSegment(env, g, pick, fetched, verdict).graph, id) == Weight(g, id)
  {
  }

  /** A rewind that leaves a segment waiting has lowered its tail. */
  lemma ExtendedIsLighter(env: Env, g: Graph, pick: SegId, fetched: bool, verdict: Verdict)
    requires Shaped(env, g) && pick in g.segs
    ensures var r := RewindSegment(env, g, pick, fetched, verdict);
            r.ok && r.graph.segs[pick].status == Disjointed && r.graph.segs[pick].prev.None? ==>
              Weight(r.graph, pick) < Weight(g, pick)
  {
    var paths :| Shape(env, g, paths);
    assert SegAt(env, g, pick, paths);
  }

  /** An attached segment keeps its tail. */
  lemma AttachedKeepsTail(env: Env, g: Graph, pick: SegId, fetched: bool, verdict: Verdict)
    requires Shaped(env, g) && pick in g.segs
    ensures var r := RewindSegment(env, g, pick, fetched, verdict);
            r.graph.segs[pick].prev.Some? ==> Weight(r.graph, pick) == Weight(g, pick)
  {
    var paths :| Shape(env, g, paths);
    assert SegAt(env, g, pick, paths);
  }

  /** The segment queued again is lighter than the one popped: either the same segment with a
      lower tail, or the predecessor it was attached to. */
  lemma TargetIsLighter(env: Env, g: Graph, pick: SegId, fetched: bool, verdict: Verdict)
    requires Shaped(env, g) && pick in g.segs
    ensures var r := RewindSegment(env, g, pick, fetched, verdict);
            var t := RewindTarget(r.graph, pick);
            r.ok && t in r.graph.segs && r.graph.segs[t].status == Disjointed ==> Weight(r.graph, t) < Weight(g, pick)
  {
    RewindSegmentShape(env, g, pick, fetched, verdict);
    ExtendedIsLighter(env, g, pick, fetched, verdict);
    AttachedKeepsTail(env, g, pick, fetched, verdict);
    var h := RewindSegment(env, g, pick, fetched, verdict).graph;
    if h.segs[pick].prev.Some? { AttachedIsHeavier(env, h, pick); }
  }

  /** Heights rise from a predecessor's tail to its head and on to the attached tail. */
  lemma AttachedIsHeavier(env: Env, g: Graph, id: SegId)
    requires Shaped(env, g) && id in g.segs && g.segs[id].prev.Some?
    ensures g.segs[id].prev.value in g.segs
    ensures g.segs[g.segs[id].prev.value].status != Invalid ==> Weight(g, g.segs[id].prev.value) < Weight(g, id)
  {
    var paths :| Shape(env, g, paths);
    assert SegAt(env, g, id, paths);
    var q := g.segs[id].prev.value;
    assert SegAt(env, g, q, paths);
    if g.segs[q].status != Invalid {
      ValidatedSegment(env, g, paths, q, 0);
    }
  }

  /** Rewind termination measure: a rewind that pops a segment strictly lowers the sum, over the
      queued segments, of tail height plus one. */
  lemma RewindLowersLoad(env: Env, c: Chain, pick: SegId, fetched: bool, verdict: Verdict, resolved: bool)
    requires Shaped(env, c.graph) && pick in c.graph.queue && pick in c.graph.segs
    ensures var d := RewindOnce(env, c, pick, fetched, verdict, resolved);
            Load(d.graph, d.graph.queue) < Load(c.graph, c.graph.queue)
  {
    var g := PopQueue(c.graph, pick);
    var rest := g.queue;
    QueueInSegs(env, c.graph);
    PopShape(env, c.graph, rest);
    LoadRemove(c.graph, c.graph.queue, pick);
    var r := RewindSegment(env, g, pick, fetched, verdict);
    forall id | id in rest ensures Weight(c.graph, id) == Weight(r.graph, id) {
      RewindSegmentWeights(env, g, pick, fetched, verdict, id);
    }
    LoadSame(c.graph, r.graph, rest);
    if r.ok {
      TargetIsLighter(env, g, pick, fetched, verdict);
      ReportLoad(env, c.(graph := r.graph), RewindTarget(r.graph, pick), resolved);
    }
  }

  /** Reporting a segment adds at most its own weight, and only while it is disjointed. */
  lemma ReportLoad(env: Env, c: Chain, t: SegId, resolved: bool)
    ensures var h := PushIfDisjointed(HandleSegmentUpdated(env, c, t, resolved).graph, t);
            Load(h, h.queue) <= Load(c.graph, c.graph.queue)
                                + if t in c.graph.segs && c.graph.segs[t].status == Disjointed
                                  then Weight(c.graph, t) else 0
  {
    var d := HandleSegmentUpdated(env, c, t, resolved).graph;
    var h := PushIfDisjointed(d, t);
    assert forall id :: Weight(h, id) == Weight(c.graph, id);
    LoadSame(c.graph, h, h.queue);
    LoadAdd(c.graph, c.graph.queue, t);
  }

  // ---------------------------------------------------------------------------------------
  // Whole runs

  ghost predicate Pops(c: Chain, e: Event) {
    e.Rewind? && e.pick in c.graph.queue && e.pick in c.graph.segs
  }

  /** How many rewinds of a run popped a segment. */
  ghost function PopCount(env: Env, c: Chain, es: seq<Event>): nat
    decreases |es|
  {
    if es == [] then 0
    else
      var fs := es[..|es| - 1];
      PopCount(env, c, fs) + if Pops(Run(env, c, fs), es[|es| - 1]) then 1 else 0
  }

  /** The work that arriving blocks can add: height plus one for each block committed. */
  ghost function Arrived(env: Env, es: seq<Event>): nat
    decreases |es|
  {
    if es == [] then 0
    else
      var e := es[|es| - 1];
      Arrived(env, es[..|es| - 1]) + if e.Commit? then Height(env, e.ref) + 1 else 0
  }

  lemma CommitLoad(env: Env, g: Graph, ref: Ref, id: SegId, verdict: Verdict)
    requires Shaped(env, g) && id !in g.segs
    ensures var h := CommitBlock(env, g, ref, id, verdict); Load(h, h.queue) <= Load(g, g.queue) + Height(env, ref) + 1
  {
    var h := CommitBlock(env, g, ref, id, verdict);
    QueueInSegs(env, g);
    assert forall x :: x in g.queue ==> Weight(g, x) == Weight(h, x);
    LoadSame(g, h, g.queue);
    if h.queue != g.queue {
      LoadAdd(h, g.queue, id);
      assert h.queue == g.queue + {id};
    }
  }

  lemma StepLoad(env: Env, c: Chain, e: Event)
    requires Shaped(env, c.graph)
    ensures var d := Step(env, c, e);
            Load(d.graph, d.graph.queue) + (if Pops(c, e) then 1 else 0)
            <= Load(c.graph, c.graph.queue) + (if e.Commit? then Height(env, e.ref) + 1 else 0)
  {
    match e
    case Commit(ref, id, verdict) =>
      if id !in c.graph.segs { CommitLoad(env, c.graph, ref, id, verdict); }
    case Rewind(pick, fetched, verdict, resolved) =>
      if Pops(c, e) { RewindLowersLoad(env, c, pick, fetched, verdict, resolved); }
    case Manage(now, later) =>
      assert ManageStateOnce(env, c, now, later).graph == c.graph;
    case Stall =>
    case Restart(_, _) =>
  }

  /** Rewinding terminates: over any run, the rewinds that pop a segment are paid for by the load
      at the start and the blocks that arrived. Without arrivals the queue drains in at most as
      many rewinds as its load. */
  lemma {:induction false} RewindsBounded(env: Env, c: Chain, es: seq<Event>)
    requires Inv(env, c)
    ensures var d := Run(env, c, es);
            PopCount(env, c, es) + Load(d.graph, d.graph.queue) <= Load(c.graph, c.graph.queue) + Arrived(env, es)
    decreases |es|
  {
    if es != [] {
      var fs := es[..|es| - 1];
      RewindsBounded(env, c, fs);
      RunInv(env, c, fs);
      StepLoad(env, Run(env, c, fs), es[|es| - 1]);
    }
  }

  // ---------------------------------------------------------------------------------------
  // No stranded segment

  /** Still to be rewound: no verdict yet and no known predecessor. */
  ghost predicate Waiting(g: Graph, id: SegId) {
    id in g.segs && g.segs[id].status == Disjointed && g.segs[id].prev.None?
  }

  /** The segments a step takes out of the queue for good: the popped one when its rewind fails,
      and on a restart all that wait, since the queue is not rebuilt from the database. */
  ghost function Lost(env: Env, c: Chain, e: Event): set<SegId> {
    match e
    case Rewind(pick, fetched, verdict, resolved) =>
      if Pops(c, e) && !RewindSegment(env, PopQueue(c.graph, pick), pick, fetched, verdict).ok then {pick} else {}
    case Restart(_, _) => set id | id in c.graph.segs && Waiting(c.graph, id)
    case _ => {}
  }

  ghost function AllLost(env: Env, c: Chain, es: seq<Event>): set<SegId>
    decreases |es|
  {
    if es == [] then {}
    else
      var fs := es[..|es| - 1];
      AllLost(env, c, fs) + Lost(env, Run(env, c, fs), es[|es| - 1])
  }

  ghost predicate Accounted(g: Graph, lost: set<SegId>) {
    forall id :: Waiting(g, id) ==> id in g.queue || id in lost
  }

  /** Waiting segments other than the popped one were waiting before. */
  lemma RewindKeepsWaiting(env: Env, c: Chain, pick: SegId, fetched: bool, verdict: Verdict, resolved: bool, id: SegId)
    requires pick in c.graph.segs && id != pick
    requires Waiting(RewindOnce(env, c, pick, fetched, verdict, resolved).graph, id)
    ensures Waiting(c.graph, id)
  {
    var r := RewindSegment(env, PopQueue(c.graph, pick), pick, fetched, verdict);
    assert Waiting(r.graph, id);
  }

  lemma RewindAccounted(env: Env, c: Chain, pick: SegId, fetched: bool, verdict: Verdict, resolved: bool,
      lost: set<SegId>)
    requires pick in c.graph.queue && pick in c.graph.segs && Accounted(c.graph, lost)
    ensures Accounted(RewindOnce(env, c, pick, fetched, verdict, resolved).graph,
                      lost + Lost(env, c, Rewind(pick, fetched, verdict, resolved)))
  {
    var r := RewindSegment(env, PopQueue(c.graph, pick), pick, fetched, verdict);
    var d := RewindOnce(env, c, pick, fetched, verdict, resolved);
    assert r.graph.queue == c.graph.queue - {pick} && r.graph.queue <= d.graph.queue;
    forall id | Waiting(d.graph, id) && id != pick ensures id in d.graph.queue || id in lost {
      RewindKeepsWaiting(env, c, pick, fetched, verdict, resolved, id);
    }
    if r.ok && Waiting(d.graph, pick) {
      assert RewindTarget(r.graph, pick) == pick;
    }
  }

  lemma StepAccounted(env: Env, c: Chain, e: Event, lost: set<SegId>)
    requires Accounted(c.graph, lost)
    ensures Accounted(Step(env, c, e).graph, lost + Lost(env, c, e))
  {
    match e
    case Commit(ref, id, verdict) =>
      var d := Step(env, c, e);
      forall k | Waiting(d.graph, k) ensures k in d.graph.queue || k in lost {
        assert k in c.graph.segs ==> Waiting(c.graph, k);
      }
    case Rewind(pick, fetched, verdict, resolved) =>
      if Pops(c, e) { RewindAccounted(env, c, pick, fetched, verdict, resolved, lost); }
    case Manage(now, later) =>
      assert ManageStateOnce(env, c, now, later).graph == c.graph;
    case Stall =>
    case Restart(_, _) =>
  }

  /** No stranded segment: in every run from a state without stranded segments, a segment that
      still waits is queued, unless its rewind failed or the node restarted. */
  lemma {:induction false} NoStrandedSegment(env: Env, c: Chain, es: seq<Event>)
    requires Accounted(c.graph, {})
    ensures Accounted(Run(env, c, es).graph, AllLost(env, c, es))
    decreases |es|
  {
    if es != [] {
      var fs := es[..|es| - 1];
      NoStrandedSegment(env, c, fs);
      StepAccounted(env, Run(env, c, fs), es[|es| - 1], AllLost(env, c, fs));
    }
  }

  /** A drained queue leaves every segment that was not lost VALID, INVALID or attached to a
      predecessor. */
  lemma DrainedQueue(env: Env, c: Chain, es: seq<Event>, id: SegId)
    requires Initial(env, c) && Run(env, c, es).graph.queue == {}
    requires id in Run(env, c, es).graph.segs && id !in AllLost(env, c, es)
    ensures var seg := Run(env, c, es).graph.segs[id]; seg.status == Valid || seg.status == Invalid || seg.prev.Some?
  {
    assert Accounted(c.graph, {});
    NoStrandedSegment(env, c, es);
    assert !Waiting(Run(env, c, es).graph, id);
  }
}
