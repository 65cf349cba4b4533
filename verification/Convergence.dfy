/**
 Catching up under any schedule: what an empty rewind queue means, and exactly when a node on an honest
 chain without forks ends with the highest block it holds as its head, in whatever order blocks arrive
 and segments are rewound.
 */
module Convergence {
  import opened Blocks
  import opened SegmentGraph
  import opened GraphInvariant
  import opened ChainModel
  import opened ChainInvariant
  import opened HeadTheorems
  import opened Restarts
  import opened QueueTheorems
  import opened SyncTheorems

  // ---------------------------------------------------------------------------------------
  // An empty queue

  /** No restart, and the lookups of a rewind resolve. */
  ghost predicate Resolving(e: Event) {
    !e.Restart? && (e.Rewind? ==> e.fetched)
  }

  /** The tail names no known block, so there is nothing to pull in. */
  ghost predicate Rootless(env: Env, seg: Seg) {
    Parent(env, seg.tail).None? || !Known(env, Parent(env, seg.tail).value)
  }

  ghost predicate Pending(env: Env, g: Graph) {
    forall id :: Waiting(g, id) ==> id in g.queue || Rootless(env, g.segs[id])
  }

  lemma CommitPending(env: Env, c: Chain, e: Event)
    requires Pending(env, c.graph) && e.Commit?
    ensures Pending(env, Step(env, c, e).graph)
  {
    var d := Step(env, c, e);
    forall k | Waiting(d.graph, k) ensures k in d.graph.queue || Rootless(env, d.graph.segs[k]) {
      assert k in c.graph.segs ==> Waiting(c.graph, k) && d.graph.segs[k].tail == c.graph.segs[k].tail;
    }
  }

  lemma RewindPending(env: Env, c: Chain, e: Event)
    requires Inv(env, c) && WellHeighted(env) && Pending(env, c.graph) && Resolving(e) && e.Rewind? && Pops(c, e)
    ensures Pending(env, Step(env, c, e).graph)
  {
    var g := PopQueue(c.graph, e.pick);
    QueueInSegs(env, c.graph);
    PopShape(env, c.graph, g.queue);
    if c.graph.segs[e.pick].status == Disjointed { RewindSucceedsIff(env, g, e.pick, e.verdict); }
    var r := RewindSegment(env, g, e.pick, true, e.verdict);
    var d := Step(env, c, e);
    assert r.graph.queue == c.graph.queue - {e.pick} && r.graph.queue <= d.graph.queue;
    forall k | Waiting(d.graph, k) ensures k in d.graph.queue || Rootless(env, d.graph.segs[k]) {
      if k == e.pick {
        if r.ok { assert RewindTarget(r.graph, k) == k; }
      } else {
        RewindKeepsWaiting(env, c, e.pick, e.fetched, e.verdict, e.resolved, k);
        RewindKeepsEnds(env, c, e, k);
      }
    }
  }

  lemma StepPending(env: Env, c: Chain, e: Event)
    requires Inv(env, c) && WellHeighted(env) && Pending(env, c.graph) && Resolving(e)
    ensures Pending(env, Step(env, c, e).graph)
  {
    match e
    case Commit(_, _, _) => CommitPending(env, c, e);
    case Rewind(_, _, _, _) => if Pops(c, e) { RewindPending(env, c, e); }
    case Manage(now, later) =>
      assert ManageStateOnce(env, c, now, later).graph == c.graph;
    case Stall =>
  }

  lemma {:induction false} RunPending(env: Env, c: Chain, es: seq<Event>)
    requires Inv(env, c) && Pending(env, c.graph) && WellHeighted(env) && forall i :: 0 <= i < |es| ==> Resolving(es[i])
    ensures Pending(env, Run(env, c, es).graph)
    decreases |es|
  {
    if es != [] {
      RunPending(env, c, es[..|es| - 1]);
      RunInv(env, c, es[..|es| - 1]);
      StepPending(env, Run(env, c, es[..|es| - 1]), es[|es| - 1]);
    }
  }

  /** In one life of a node, with honest heights and resolving lookups, an empty queue leaves no segment
      behind: each is VALID, INVALID, attached, or ends at a block whose parent the node does not know.
      The life may start from any state in which every segment that waits is queued or so ends. */
  lemma {:induction false} DrainedSettles(env: Env, c: Chain, es: seq<Event>, id: SegId)
    requires Inv(env, c) && Pending(env, c.graph) && WellHeighted(env) && forall i :: 0 <= i < |es| ==> Resolving(es[i])
    requires Run(env, c, es).graph.queue == {} && id in Run(env, c, es).graph.segs
    ensures var seg := Run(env, c, es).graph.segs[id];
            seg.status == Valid || seg.status == Invalid || seg.prev.Some? || Rootless(env, seg)
  {
    RunPending(env, c, es);
    assert Waiting(Run(env, c, es).graph, id) ==> Rootless(env, Run(env, c, es).graph.segs[id]);
  }

  // ---------------------------------------------------------------------------------------
  // An honest chain without forks

  /** No two known blocks name the same parent. */
  ghost predicate Unforked(env: Env) {
    forall r, s :: Known(env, r) && Known(env, s) && Parent(env, r).Some? && Parent(env, r) == Parent(env, s) ==> r == s
  }

  /** The application accepts every block, with or without a mark. */
  ghost predicate Accepting(e: Event) {
    (e.Commit? || e.Rewind?) ==> e.verdict.Accepted?
  }

  ghost predicate NoneInvalid(g: Graph) {
    forall id :: id in g.segs ==> g.segs[id].status != Invalid
  }

  /** Without forks a tail can only name the head of the segment below. */
  lemma TailNamesHead(env: Env, g: Graph, pick: SegId, b: Ref, q: SegId)
    requires Shaped(env, g) && Unforked(env) && pick in g.segs && q != pick
    requires Parent(env, g.segs[pick].tail) == Some(b) && Rec(g, b).segment == Some(q)
    ensures q in g.segs && b == g.segs[q].head
  {
    var paths :| Shape(env, g, paths);
    assert RecordOk(g, b, paths);
    assert SegAt(env, g, pick, paths) && SegAt(env, g, q, paths);
    var p := paths[q];
    var j :| 0 <= j < |p| && p[j] == b;
    forall k | 0 <= k < |p| - 1 ensures p[k] != b {
      assert Parent(env, p[k + 1]) == Some(p[(k + 1) - 1]) && Rec(g, p[k + 1]).segment == Some(q);
    }
  }

  lemma RewindNoneInvalid(env: Env, g: Graph, pick: SegId, fetched: bool, mark: bool)
    requires Shaped(env, g) && HonestLinks(env) && Unforked(env) && NoneInvalid(g) && pick in g.segs
    ensures NoneInvalid(RewindSegment(env, g, pick, fetched, Accepted(mark)).graph)
  {
    var paths :| Shape(env, g, paths);
    assert SegAt(env, g, pick, paths);
    var seg := g.segs[pick];
    if Parent(env, seg.tail).Some? && Known(env, Parent(env, seg.tail).value) {
      var b := Parent(env, seg.tail).value;
      assert Linked(env, b, seg.tail);
      if Rec(g, b).segment.Some? && Rec(g, b).segment != Some(pick) {
        var q := Rec(g, b).segment.value;
        TailNamesHead(env, g, pick, b, q);
      }
    }
  }

  lemma CommitNoneInvalid(env: Env, g: Graph, ref: Ref, id: SegId, mark: bool)
    requires NoneInvalid(g)
    ensures NoneInvalid(CommitBlock(env, g, ref, id, Accepted(mark)))
  {
  }

  lemma ReportNoneInvalid(env: Env, c: Chain, pick: SegId, r: Rewound, resolved: bool)
    requires NoneInvalid(r.graph)
    ensures NoneInvalid(ReportRewound(env, c, pick, r, resolved).graph)
  {
  }

  lemma StepNoneInvalid(env: Env, c: Chain, e: Event)
    requires Inv(env, c) && HonestLinks(env) && Unforked(env) && NoneInvalid(c.graph) && Accepting(e)
    ensures NoneInvalid(Step(env, c, e).graph)
  {
    match e
    case Commit(ref, id, verdict) =>
      CommitNoneInvalid(env, c.graph, ref, id, verdict.markValid);
    case Rewind(pick, fetched, verdict, resolved) =>
      if Pops(c, e) {
        var g := PopQueue(c.graph, pick);
        QueueInSegs(env, c.graph);
        PopShape(env, c.graph, g.queue);
        RewindNoneInvalid(env, g, pick, fetched, verdict.markValid);
        ReportNoneInvalid(env, c, pick, RewindSegment(env, g, pick, fetched, verdict), resolved);
      }
    case Manage(now, later) =>
      assert ManageStateOnce(env, c, now, later).graph == c.graph;
    case Stall =>
    case Restart(_, _) =>
  }

  lemma {:induction false} RunNoneInvalid(env: Env, c: Chain, es: seq<Event>)
    requires Inv(env, c) && HonestLinks(env) && Unforked(env) && NoneInvalid(c.graph)
    requires forall i :: 0 <= i < |es| ==> Accepting(es[i])
    ensures NoneInvalid(Run(env, c, es).graph)
    decreases |es|
  {
    if es != [] {
      RunNoneInvalid(env, c, es[..|es| - 1]);
      RunInv(env, c, es[..|es| - 1]);
      StepNoneInvalid(env, Run(env, c, es[..|es| - 1]), es[|es| - 1]);
    }
  }

  // ---------------------------------------------------------------------------------------
  // The top of the chain

  /** A segment of the branch above `genesis` that starts above the block `h` without predecessor. */
  ghost predicate Gap(env: Env, g: Graph, genesis: Ref, h: Ref, n: SegId) {
    && n in g.segs && g.segs[n].prev.None?
    && IsAncestor(env, genesis, g.segs[n].tail) && Height(env, g.segs[n].tail) > Height(env, h)
  }

  /** The segment of the block's parent, which is attached below the block's own if it is another. */
  lemma ParentOwned(env: Env, g: Graph, r: Ref, p: Ref)
    requires Shaped(env, g) && Rec(g, r).segment.Some? && Rec(g, r).segment.value in g.segs
    requires Parent(env, r) == Some(p) && Known(env, p)
    requires g.segs[Rec(g, r).segment.value].tail == r ==> g.segs[Rec(g, r).segment.value].prev.Some?
    ensures Rec(g, p).segment.Some? && Rec(g, p).segment.value in g.segs
    ensures g.segs[Rec(g, p).segment.value].next.Some? || g.segs[Rec(g, p).segment.value].head != p
  {
    var paths :| Shape(env, g, paths);
    var u := Rec(g, r).segment.value;
    assert RecordOk(g, r, paths) && RecordOk(g, p, paths);
    assert SegAt(env, g, u, paths);
    var j :| 0 <= j < |paths[u]| && paths[u][j] == r;
    if j > 0 {
      assert Parent(env, paths[u][j]) == Some(paths[u][j - 1]);
      assert Rec(g, paths[u][j - 1]).next == Some(paths[u][j]);
    } else {
      assert SegAt(env, g, g.segs[u].prev.value, paths);
    }
  }

  /** Without a gap above `h`, nothing the node holds lies above the head of a segment without
      successor. */
  lemma {:induction false} NothingAbove(env: Env, g: Graph, genesis: Ref, h: Ref, s: SegId, r: Ref, d: nat)
    requires Shaped(env, g) && WellHeighted(env) && s in g.segs && g.segs[s].next.None?
    requires Known(env, g.segs[s].head) && Height(env, h) <= Height(env, g.segs[s].head)
    requires IsAncestor(env, genesis, g.segs[s].head) && forall n :: !Gap(env, g, genesis, h, n)
    requires Rec(g, r).segment.Some? && NthParent(env, r, d) == Some(g.segs[s].head)
    ensures r == g.segs[s].head
    decreases d
  {
    var paths :| Shape(env, g, paths);
    assert SegAt(env, g, s, paths);
    if d > 0 {
      var p := Parent(env, r).value;
      assert Known(env, p) by { assert d == 1 ==> NthParent(env, r, d) == Some(p); }
      ParentHeights(env, r, d);
      assert IsAncestor(env, g.segs[s].head, r);
      AncestorsCompose(env, genesis, g.segs[s].head, r);
      assert RecordOk(g, r, paths) && !Gap(env, g, genesis, h, Rec(g, r).segment.value);
      ParentOwned(env, g, r, p);
      NothingAbove(env, g, genesis, h, s, p, d - 1);
      assert false;
    }
  }

  /** Two descendants of one block on a chain without forks lie on one line. */
  lemma {:induction false} Comparable(env: Env, genesis: Ref, h: Ref, r: Ref, a: nat, b: nat)
    requires Unforked(env) && a <= b
    requires NthParent(env, h, a) == Some(genesis) && NthParent(env, r, b) == Some(genesis)
    ensures NthParent(env, r, b - a) == Some(h)
    decreases a
  {
    if a > 0 {
      Comparable(env, genesis, Parent(env, h).value, r, a - 1, b);
      PrefixOfParents(env, r, b - a, b - a + 1);
      NthParentAdd(env, r, b - a, 1);
      var x := NthParent(env, r, b - a).value;
      assert NthParent(env, x, 1) == Parent(env, x);
    }
  }

  /** The head is comparable with the block, and too high or on too high a segment to lie below it. */
  lemma HeadIsAbove(env: Env, genesis: Ref, g: Graph, h: Ref, s: SegId, r: Ref)
    requires Shaped(env, g) && WellHeighted(env) && Unforked(env)
    requires s in g.segs && IsAncestor(env, genesis, g.segs[s].head) && Height(env, h) <= Height(env, g.segs[s].head)
    requires forall n :: !Gap(env, g, genesis, h, n)
    requires Rec(g, r).segment.Some? && IsAncestor(env, genesis, r)
    requires g.segs[s].next.None? || Height(env, g.segs[s].head) >= Height(env, r)
    ensures IsAncestor(env, r, g.segs[s].head)
  {
    var top := g.segs[s].head;
    var a: nat :| NthParent(env, top, a) == Some(genesis);
    var b: nat :| NthParent(env, r, b) == Some(genesis);
    if b <= a {
      Comparable(env, genesis, r, top, b, a);
    } else {
      Comparable(env, genesis, top, r, a, b);
      SetHeadOk(env, EMPTY.(graph := g), s);
      ParentHeights(env, r, b - a);
      if g.segs[s].next.None? { NothingAbove(env, g, genesis, h, s, r, b - a); }
    }
  }

  // ---------------------------------------------------------------------------------------
  // Below the head

  /** Of two segments below `t`, one without predecessor is below the other. */
  lemma {:induction false} BottomFirst(g: Graph, n: SegId, s: SegId, t: SegId, j: nat, k: nat)
    requires n in g.segs && g.segs[n].prev.None? && Climbs(g, n, t, j) && Climbs(g, s, t, k)
    ensures k <= j && Climbs(g, n, s, j - k)
    decreases k
  {
    if k > 0 && j > 0 { BottomFirst(g, n, s, g.segs[t].prev.value, j - 1, k - 1); }
  }

  /** The tail of the lowest segment below `t` is no higher than any block of a segment below `t`. */
  lemma BottomIsLow(env: Env, g: Graph, n: SegId, t: SegId, a: Ref)
    requires Shaped(env, g) && WellHeighted(env) && n in g.segs && g.segs[n].prev.None? && Leads(g, n, t)
    requires Rec(g, a).segment.Some? && Leads(g, Rec(g, a).segment.value, t)
    ensures Height(env, g.segs[n].tail) <= Height(env, a)
  {
    var s := Rec(g, a).segment.value;
    var j: nat, k: nat :| Climbs(g, n, t, j) && Climbs(g, s, t, k);
    BottomFirst(g, n, s, t, j, k);
    var paths :| Shape(env, g, paths);
    assert RecordOk(g, a, paths);
    assert SegAt(env, g, s, paths) && SegAt(env, g, n, paths);
    var i :| 0 <= i < |paths[s]| && paths[s][i] == a;
    var m := TailBelow(env, g, paths, n, s, j - k, i);
    ParentHeights(env, a, m);
  }

  lemma AncestorIsLow(env: Env, a: Ref, b: Ref)
    requires WellHeighted(env) && Known(env, a) && IsAncestor(env, a, b)
    ensures Height(env, a) <= Height(env, b) && Known(env, b)
  {
    AncestorDescends(env, a, b);
    var n: nat :| NthParent(env, b, n) == Some(a);
  }

  lemma TailKnown(env: Env, g: Graph, n: SegId)
    requires Shaped(env, g) && n in g.segs
    ensures Known(env, g.segs[n].tail) && Rec(g, g.segs[n].tail).segment == Some(n)
  {
    var paths :| Shape(env, g, paths);
    assert SegAt(env, g, n, paths);
    assert paths[n][0] == g.segs[n].tail;
  }

  /** A segment that starts without predecessor above `h` stays above the head of every segment above
      the segment of `h`. */
  lemma GapStaysAbove(env: Env, g: Graph, genesis: Ref, h: Ref, n: SegId, t: SegId)
    requires Shaped(env, g) && WellHeighted(env) && t in g.segs && Gap(env, g, genesis, h, n)
    requires Rec(g, h).segment.Some? && Leads(g, Rec(g, h).segment.value, t)
    ensures !IsAncestor(env, g.segs[n].tail, g.segs[t].head)
  {
    var a := g.segs[n].tail;
    TailKnown(env, g, n);
    if IsAncestor(env, a, g.segs[t].head) {
      AdoptionIff(env, g, a, t);
      if Leads(g, n, t) {
        BottomIsLow(env, g, n, t, h);
      } else {
        var m :| Bottom(g, m, t) && Parent(env, g.segs[m].tail).Some?
                   && IsAncestor(env, a, Parent(env, g.segs[m].tail).value);
        AncestorIsLow(env, a, Parent(env, g.segs[m].tail).value);
        TailKnown(env, g, m);
        BottomIsLow(env, g, m, t, h);
      }
      assert false;
    }
  }

  // ---------------------------------------------------------------------------------------
  // Management passes

  ghost predicate AllManage(ms: seq<Event>) {
    forall i :: 0 <= i < |ms| ==> ms[i].Manage?
  }

  /** Each pass climbs one segment until there is no successor, and leaves the head on top of the state
      segment. */
  lemma {:induction false} Passes(env: Env, c: Chain, ms: seq<Event>)
    requires Inv(env, c) && c.stateSegment.Some? && AllManage(ms)
    ensures var d := Run(env, c, ms);
            && d.graph == c.graph && d.stateSegment.Some? && d.stateSegment.value in d.graph.segs
            && var top := d.graph.segs[d.stateSegment.value];
            && (ms != [] ==> d.head == Some(top.head))
            && (top.next.None? || Height(env, top.head) >= |ms|)
    decreases |ms|
  {
    if ms != [] {
      var ns := ms[..|ms| - 1];
      Passes(env, c, ns);
      RunInv(env, c, ns);
      PassOne(env, Run(env, c, ns), ms[|ms| - 1], |ns|);
    }
  }

  /** Passes keep every segment link up to the state segment. */
  lemma {:induction false} PassesLead(env: Env, c: Chain, ms: seq<Event>, s: SegId)
    requires Inv(env, c) && c.stateSegment.Some? && AllManage(ms) && Leads(c.graph, s, c.stateSegment.value)
    ensures Run(env, c, ms).stateSegment.Some? && Leads(c.graph, s, Run(env, c, ms).stateSegment.value)
    decreases |ms|
  {
    if ms != [] {
      var ns := ms[..|ms| - 1];
      PassesLead(env, c, ns, s);
      Passes(env, c, ns);
      RunInv(env, c, ns);
      var d := Run(env, c, ns);
      var t := Forward(d.graph, d.stateSegment.value);
      LeadsForward(env, d.graph, s, d.stateSegment.value);
      ManageHead(env, d, ms[|ms| - 1].now, ms[|ms| - 1].later);
      ForwardInSegs(env, d.graph, d.stateSegment.value);
      SetHeadOk(env, d, t);
    }
  }

  lemma PassOne(env: Env, d: Chain, m: Event, n: nat)
    requires Inv(env, d) && m.Manage? && d.stateSegment.Some?
    requires var top := d.graph.segs[d.stateSegment.value]; top.next.None? || Height(env, top.head) >= n
    ensures var f := Step(env, d, m);
            && f.graph == d.graph && f.stateSegment.Some? && f.stateSegment.value in f.graph.segs
            && var top := f.graph.segs[f.stateSegment.value];
            f.head == Some(top.head) && (top.next.None? || Height(env, top.head) >= n + 1)
  {
    var s := d.stateSegment.value;
    ManageHead(env, d, m.now, m.later);
    ForwardInSegs(env, d.graph, s);
    SetHeadOk(env, d, Forward(d.graph, s));
    if d.graph.segs[s].next.Some? {
      assert NthSegment(d.graph, s, 0) == Some(s);
      assert NthSegment(d.graph, s, 1) == Some(Forward(d.graph, s));
      SegmentHeightsRise(env, d.graph, s, 1);
    }
  }

  // ---------------------------------------------------------------------------------------
  // Exactly when the head catches up

  /** A block the node holds on the branch above `genesis`. */
  ghost predicate Held(env: Env, g: Graph, genesis: Ref, r: Ref) {
    Rec(g, r).segment.Some? && IsAncestor(env, genesis, r)
  }

  /** The head after the passes, and where it is. */
  lemma {:induction false} AfterPasses(env: Env, genesis: Ref, d: Chain, ms: seq<Event>)
    requires WellHeighted(env) && Inv(env, d) && d.head.Some? && IsAncestor(env, genesis, d.head.value)
    requires AllManage(ms) && ms != []
    ensures var f := Run(env, d, ms);
            && f.graph == d.graph && f.stateSegment.Some? && f.stateSegment.value in d.graph.segs
            && var top := d.graph.segs[f.stateSegment.value];
            && f.head == Some(top.head) && (top.next.None? || Height(env, top.head) >= |ms|)
            && Height(env, d.head.value) <= Height(env, top.head) && IsAncestor(env, genesis, top.head)
  {
    Passes(env, d, ms);
    assert NoRestart(ms);
    NoRollback(env, d, ms);
    AncestorsCompose(env, genesis, d.head.value, Run(env, d, ms).head.value);
  }

  /** Without a gap above the head, the passes put it at or above every held block. */
  lemma {:induction false} PassesReach(env: Env, genesis: Ref, d: Chain, ms: seq<Event>, r: Ref)
    requires WellHeighted(env) && Unforked(env) && Inv(env, d) && d.head.Some? && IsAncestor(env, genesis, d.head.value)
    requires AllManage(ms) && ms != [] && Held(env, d.graph, genesis, r) && |ms| >= Height(env, r)
    requires forall n :: !Gap(env, d.graph, genesis, d.head.value, n)
    ensures Run(env, d, ms).head.Some? && IsAncestor(env, r, Run(env, d, ms).head.value)
  {
    AfterPasses(env, genesis, d, ms);
    HeadIsAbove(env, genesis, d.graph, d.head.value, Run(env, d, ms).stateSegment.value, r);
  }

  /** A gap above the head keeps a held block above it. */
  lemma {:induction false} PassesMiss(env: Env, genesis: Ref, d: Chain, ms: seq<Event>, n: SegId)
    requires WellHeighted(env) && Inv(env, d) && d.head.Some? && IsAncestor(env, genesis, d.head.value)
    requires AllManage(ms) && ms != [] && Gap(env, d.graph, genesis, d.head.value, n)
    ensures Held(env, d.graph, genesis, d.graph.segs[n].tail)
    ensures Run(env, d, ms).head.Some? && !IsAncestor(env, d.graph.segs[n].tail, Run(env, d, ms).head.value)
  {
    AfterPasses(env, genesis, d, ms);
    TailKnown(env, d.graph, n);
    PassesLead(env, d, ms, Rec(d.graph, d.head.value).segment.value);
    GapStaysAbove(env, d.graph, genesis, d.head.value, n, Run(env, d, ms).stateSegment.value);
  }

  /** As many passes as the highest held block has height. */
  ghost predicate Enough(env: Env, g: Graph, genesis: Ref, ms: seq<Event>) {
    && ms != [] && AllManage(ms)
    && forall r :: Held(env, g, genesis, r) ==> |ms| >= Height(env, r)
  }

  /** Catching up, exactly, from any state of a node whose chain has honest heights and no forks: enough
      passes put the head at or above every block the node holds on its branch if and only if no segment
      of the branch starts without predecessor above the head. */
  lemma {:induction false} CatchesUpIff(env: Env, genesis: Ref, d: Chain, ms: seq<Event>)
    requires WellHeighted(env) && Unforked(env) && Inv(env, d) && d.head.Some? && IsAncestor(env, genesis, d.head.value)
    requires Enough(env, d.graph, genesis, ms)
    ensures Run(env, d, ms).head.Some?
    ensures (forall r :: Held(env, d.graph, genesis, r) ==> IsAncestor(env, r, Run(env, d, ms).head.value))
            <==> forall n :: !Gap(env, d.graph, genesis, d.head.value, n)
  {
    AfterPasses(env, genesis, d, ms);
    if n :| Gap(env, d.graph, genesis, d.head.value, n) {
      PassesMiss(env, genesis, d, ms, n);
    } else {
      forall r | Held(env, d.graph, genesis, r) ensures IsAncestor(env, r, Run(env, d, ms).head.value) {
        PassesReach(env, genesis, d, ms, r);
      }
    }
  }

  // ---------------------------------------------------------------------------------------
  // A drained queue

  /** The rewind queue is empty, and whatever still waits ends at a block whose parent is unknown. */
  ghost predicate Drained(env: Env, d: Chain) {
    Inv(env, d) && Pending(env, d.graph) && d.graph.queue == {} && NoneInvalid(d.graph)
  }

  /** What a run in which the application accepts every block, marked or not, and lookups resolve leaves
      when its queue is empty. */
  lemma {:induction false} RunDrained(env: Env, c: Chain, es: seq<Event>)
    requires Inv(env, c) && Pending(env, c.graph) && NoneInvalid(c.graph) && HonestLinks(env) && Unforked(env)
    requires forall i :: 0 <= i < |es| ==> Resolving(es[i]) && Accepting(es[i])
    requires Run(env, c, es).graph.queue == {}
    ensures Drained(env, Run(env, c, es))
  {
    assert WellHeighted(env);
    RunInv(env, c, es);
    RunPending(env, c, es);
    RunNoneInvalid(env, c, es);
  }

  /** Settled as VALID before it met its predecessor. */
  ghost predicate Cut(g: Graph, id: SegId) {
    id in g.segs && g.segs[id].status == Valid && g.segs[id].prev.None?
  }

  lemma DescendantParentKnown(env: Env, genesis: Ref, r: Ref)
    requires Known(env, genesis) && IsAncestor(env, genesis, r) && r != genesis
    ensures Parent(env, r).Some? && Known(env, Parent(env, r).value)
  {
    var n: nat :| NthParent(env, r, n) == Some(genesis);
    assert n == 1 ==> NthParent(env, r, n) == Parent(env, r);
    assert n > 1 ==> NthParent(env, r, n) == NthParent(env, Parent(env, r).value, n - 1);
  }

  /** Once the queue is drained, only a segment that is VALID can leave a gap. */
  lemma DrainedGap(env: Env, genesis: Ref, d: Chain, n: SegId)
    requires WellHeighted(env) && Known(env, genesis) && Drained(env, d) && d.head.Some?
    requires IsAncestor(env, genesis, d.head.value) && Gap(env, d.graph, genesis, d.head.value, n)
    ensures Cut(d.graph, n)
  {
    AncestorIsLow(env, genesis, d.head.value);
    DescendantParentKnown(env, genesis, d.graph.segs[n].tail);
    assert !Waiting(d.graph, n);
  }

  // ---------------------------------------------------------------------------------------
  // One life without marks

  /** No cut segment but one that segment links lead from up to the state segment of a node with a head. */
  ghost predicate Tidy(c: Chain) {
    forall n :: Cut(c.graph, n) ==> c.head.Some? && c.stateSegment.Some? && Leads(c.graph, n, c.stateSegment.value)
  }

  /** Lookups resolve, and the application accepts every block without marking it. */
  ghost predicate Smooth(e: Event) {
    Resolving(e) && ((e.Commit? || e.Rewind?) ==> e.verdict == Accepted(false))
  }

  lemma CommitCut(env: Env, g: Graph, ref: Ref, id: SegId, n: SegId)
    requires id !in g.segs && Cut(CommitBlock(env, g, ref, id, Accepted(false)), n)
    ensures Cut(g, n)
  {
  }

  lemma PulledCut(env: Env, g: Graph, pick: SegId, fetched: bool, n: SegId)
    requires pick in g.segs && Cut(RewindSegment(env, g, pick, fetched, Accepted(false)).graph, n)
    ensures Cut(g, n)
  {
  }

  lemma RewindTidy(env: Env, c: Chain, e: Event)
    requires Inv(env, c) && Tidy(c) && e.Rewind? && Smooth(e) && Pops(c, e)
    ensures Tidy(Step(env, c, e))
  {
    var d := Step(env, c, e);
    StepShape(env, c, e);
    var r := RewindSegment(env, PopQueue(c.graph, e.pick), e.pick, e.fetched, e.verdict);
    forall n | Cut(d.graph, n)
      ensures d.head.Some? && d.stateSegment.Some? && Leads(d.graph, n, d.stateSegment.value)
    {
      if t :| Adopts(env, c, e, t) {
        AdoptionHead(env, c, e, t);
        assert Climbs(d.graph, t, t, 0);
        if n != t { PulledCut(env, PopQueue(c.graph, e.pick), e.pick, e.fetched, n); }
      } else {
        NoAdoption(env, c, e);
        assert !Adopts(env, c, e, RewindTarget(r.graph, e.pick));
        PulledCut(env, PopQueue(c.graph, e.pick), e.pick, e.fetched, n);
        assert Cut(c.graph, n);
        LeadsKept(c.graph, d.graph, n, c.stateSegment.value);
      }
    }
  }

  lemma CommitTidy(env: Env, c: Chain, e: Event)
    requires Inv(env, c) && Tidy(c) && e.Commit? && Smooth(e)
    ensures Tidy(Step(env, c, e))
  {
    var d := Step(env, c, e);
    StepShape(env, c, e);
    forall n | Cut(d.graph, n)
      ensures d.head.Some? && d.stateSegment.Some? && Leads(d.graph, n, d.stateSegment.value)
    {
      if e.id !in c.graph.segs { CommitCut(env, c.graph, e.ref, e.id, n); }
      LeadsKept(c.graph, d.graph, n, c.stateSegment.value);
    }
  }

  lemma PassTidy(env: Env, c: Chain, e: Event)
    requires Inv(env, c) && Tidy(c) && (e.Manage? || e.Stall?)
    ensures Tidy(Step(env, c, e))
  {
    if c.stateSegment.Some? {
      var t := Forward(c.graph, c.stateSegment.value);
      ForwardInSegs(env, c.graph, c.stateSegment.value);
      if e.Manage? {
        ManageHead(env, c, e.now, e.later);
        SetHeadOk(env, c, t);
        assert ManageStateOnce(env, c, e.now, e.later).stateSegment == Some(t);
      }
      forall n | Cut(c.graph, n) ensures Leads(c.graph, n, t) {
        LeadsForward(env, c.graph, n, c.stateSegment.value);
      }
    }
  }

  lemma StepTidy(env: Env, c: Chain, e: Event)
    requires Inv(env, c) && Tidy(c) && Smooth(e)
    ensures Tidy(Step(env, c, e))
  {
    match e
    case Commit(_, _, _) => CommitTidy(env, c, e);
    case Rewind(_, _, _, _) => if Pops(c, e) { RewindTidy(env, c, e); }
    case Manage(_, _) => PassTidy(env, c, e);
    case Stall => PassTidy(env, c, e);
  }

  lemma {:induction false} RunTidy(env: Env, c: Chain, es: seq<Event>)
    requires Inv(env, c) && Tidy(c) && forall i :: 0 <= i < |es| ==> Smooth(es[i])
    ensures Tidy(Run(env, c, es))
    decreases |es|
  {
    if es != [] {
      RunTidy(env, c, es[..|es| - 1]);
      RunInv(env, c, es[..|es| - 1]);
      StepTidy(env, Run(env, c, es[..|es| - 1]), es[|es| - 1]);
    }
  }

  /** A tidy node with a drained queue has no gap above its head. */
  lemma TidyNoGap(env: Env, genesis: Ref, d: Chain, n: SegId)
    requires WellHeighted(env) && Known(env, genesis) && Drained(env, d) && Tidy(d) && d.head.Some?
    requires IsAncestor(env, genesis, d.head.value)
    ensures !Gap(env, d.graph, genesis, d.head.value, n)
  {
    if Gap(env, d.graph, genesis, d.head.value, n) {
      DrainedGap(env, genesis, d, n);
      BottomIsLow(env, d.graph, n, d.stateSegment.value, d.head.value);
      assert false;
    }
  }

  /** What one life of a node may start from. */
  ghost predicate Ready(env: Env, c: Chain) {
    Inv(env, c) && Pending(env, c.graph) && NoneInvalid(c.graph) && Tidy(c)
  }

  /** Every node the code starts is ready: on an empty database, on the chain it has just minted, and on
      either one reopened. */
  lemma StartsReady(env: Env, init: Chain, height: nat, round: nat)
    requires Initial(env, init)
    ensures Ready(env, init) && Ready(env, Step(env, init, Restart(height, round)))
  {
    InitialInv(env, init);
    StepInv(env, init, Restart(height, round));
  }

  /** A restart leaves a node ready exactly if nothing it forgets could still be rewound and no segment is
      cut off. */
  lemma RestartReadyIff(env: Env, c: Chain, height: nat, round: nat)
    requires Inv(env, c) && NoneInvalid(c.graph)
    ensures Ready(env, Step(env, c, Restart(height, round))) <==>
            && (forall id :: Waiting(c.graph, id) ==> Rootless(env, c.graph.segs[id]))
            && (forall id :: !Cut(c.graph, id))
  {
    var d := Step(env, c, Restart(height, round));
    StepInv(env, c, Restart(height, round));
    assert forall id :: Waiting(d.graph, id) <==> Waiting(c.graph, id);
    assert forall id :: Cut(d.graph, id) <==> Cut(c.graph, id);
  }

  /** Catching up under any schedule, in one life of a node on an honest chain without forks: blocks may
      arrive in any order and number, segments be rewound in any order and a first head be adopted, with
      management passes in between. Once the queue is empty, at most one pass for each height puts the
      head at or above every block the node holds on its branch. */
  lemma {:induction false} CatchesUp(env: Env, genesis: Ref, c: Chain, es: seq<Event>, ms: seq<Event>, r: Ref)
    requires Ready(env, c) && HonestLinks(env) && Unforked(env) && forall i :: 0 <= i < |es| ==> Smooth(es[i])
    requires Run(env, c, es).graph.queue == {} && Known(env, genesis)
    requires Run(env, c, es).head.Some? && IsAncestor(env, genesis, Run(env, c, es).head.value)
    requires AllManage(ms) && ms != [] && |ms| >= Height(env, r) && Held(env, Run(env, c, es).graph, genesis, r)
    ensures var d := Run(env, Run(env, c, es), ms);
            d.head.Some? && IsAncestor(env, r, d.head.value)
  {
    var d := Run(env, c, es);
    assert WellHeighted(env);
    assert forall i :: 0 <= i < |es| ==> Smooth(es[i]) ==> Resolving(es[i]) && Accepting(es[i]);
    RunDrained(env, c, es);
    RunTidy(env, c, es);
    forall n ensures !Gap(env, d.graph, genesis, d.head.value, n) {
      TidyNoGap(env, genesis, d, n);
    }
    PassesReach(env, genesis, d, ms, r);
  }
}
