/**
 What rewinding achieves: when it fails, when a splice succeeds, and when a node which sees only the
 newest block of a branch catches up with it.
 */
module SyncTheorems {
  import opened Blocks
  import opened SegmentGraph
  import opened GraphInvariant
  import opened ChainModel
  import opened ChainInvariant
  import opened HeadTheorems

  // ---------------------------------------------------------------------------------------
  // Failure and forks

  /** With honest heights a rewind whose lookups resolve fails exactly when the tail has no known
      parent: the error "previous segment resolved to same segment" cannot happen. */
  lemma RewindSucceedsIff(env: Env, g: Graph, pick: SegId, verdict: Verdict)
    requires Shaped(env, g) && WellHeighted(env) && pick in g.segs && g.segs[pick].status == Disjointed
    ensures RewindSegment(env, g, pick, true, verdict).ok
            <==> Parent(env, g.segs[pick].tail).Some? && Known(env, Parent(env, g.segs[pick].tail).value)
  {
    var paths :| Shape(env, g, paths);
    assert SegAt(env, g, pick, paths);
    var seg := g.segs[pick];
    if Parent(env, seg.tail).Some? && Known(env, Parent(env, seg.tail).value) {
      var b := Parent(env, seg.tail).value;
      assert RecordOk(g, b, paths);
      if Rec(g, b).segment.Some? {
        var q := Rec(g, b).segment.value;
        assert SegAt(env, g, q, paths);
        var j :| 0 <= j < |paths[q]| && paths[q][j] == b;
        NamedHeights(env, paths[q], 0, j);
      }
    }
  }

  /** Every known block passes the structural checks on the known block it names. */
  ghost predicate HonestLinks(env: Env) {
    forall r, p :: Known(env, r) && Known(env, p) && Parent(env, r) == Some(p) ==> Linked(env, p, r)
  }

  /** On honest blocks the splice tells extension from fork: a segment whose tail names the head of
      another is attached and takes its status, one that forks off lower down becomes INVALID. */
  lemma SpliceOutcome(env: Env, g: Graph, pick: SegId, mark: bool, b: Ref, q: SegId)
    requires Shaped(env, g) && HonestLinks(env) && pick in g.segs && g.segs[pick].status == Disjointed
    requires Parent(env, g.segs[pick].tail) == Some(b) && Known(env, b) && Rec(g, b).segment == Some(q) && q != pick
    ensures var h := RewindSegment(env, g, pick, true, Accepted(mark)).graph;
            && q in g.segs && pick in h.segs
            && h.segs[pick] == if b == g.segs[q].head then g.segs[pick].(status := g.segs[q].status, prev := Some(q))
                               else g.segs[pick].(status := Invalid)
  {
    TailLinkedIff(env, g, pick, b, q);
  }

  /** A tail that names a block of segment `q` fits on the head of `q` exactly if it names that head. */
  lemma TailLinkedIff(env: Env, g: Graph, pick: SegId, b: Ref, q: SegId)
    requires Shaped(env, g) && HonestLinks(env) && pick in g.segs
    requires Parent(env, g.segs[pick].tail) == Some(b) && Known(env, b) && Rec(g, b).segment == Some(q)
    ensures q in g.segs && Known(env, g.segs[q].head) && Known(env, g.segs[pick].tail)
    ensures Linked(env, g.segs[q].head, g.segs[pick].tail) <==> b == g.segs[q].head
  {
    var paths :| Shape(env, g, paths);
    assert SegAt(env, g, pick, paths) && RecordOk(g, b, paths);
    assert SegAt(env, g, q, paths);
    assert WellHeighted(env);
    var p := paths[q];
    var j :| 0 <= j < |p| && p[j] == b;
    NamedHeights(env, p, j, |p| - 1);
  }

  // ---------------------------------------------------------------------------------------
  // Stranded segments

  /** Settled as VALID before it met its predecessor, and neither what the chain follows nor where its
      head is. */
  ghost predicate Stranded(c: Chain, id: SegId) {
    && id in c.graph.segs && c.graph.segs[id].status == Valid && c.graph.segs[id].prev.None?
    && c.stateSegment != Some(id) && (c.head.Some? ==> Rec(c.graph, c.head.value).segment != Some(id))
  }

  lemma ReportStranded(env: Env, c: Chain, pick: SegId, r: Rewound, resolved: bool, id: SegId)
    requires Shaped(env, r.graph) && Stranded(c.(graph := r.graph), id)
    ensures Stranded(ReportRewound(env, c, pick, r, resolved), id)
  {
    var t := RewindTarget(r.graph, pick);
    if t in r.graph.segs { SetHeadOk(env, c.(graph := r.graph), t); }
  }

  lemma RewindSegmentStranded(env: Env, c: Chain, pick: SegId, fetched: bool, verdict: Verdict, id: SegId)
    requires Inv(env, c) && pick in c.graph.segs && Stranded(c, id)
    ensures Stranded(c.(graph := RewindSegment(env, PopQueue(c.graph, pick), pick, fetched, verdict).graph), id)
  {
  }

  lemma ManageStranded(env: Env, c: Chain, now: int, later: int, id: SegId)
    requires Inv(env, c) && Stranded(c, id) && c.stateSegment.Some?
    ensures Stranded(ManageStateOnce(env, c, now, later), id)
  {
    var s := c.stateSegment.value;
    ManageHead(env, c, now, later);
    if c.graph.segs[s].next.Some? { ForwardAttached(env, c.graph, s); }
    SetHeadOk(env, c, Forward(c.graph, s));
  }

  lemma ForwardAttached(env: Env, g: Graph, s: SegId)
    requires Shaped(env, g) && s in g.segs && g.segs[s].next.Some?
    ensures Forward(g, s) in g.segs && g.segs[Forward(g, s)].prev == Some(s)
  {
    var paths :| Shape(env, g, paths);
    assert SegAt(env, g, s, paths);
  }

  lemma StepStranded(env: Env, c: Chain, e: Event, id: SegId)
    requires Inv(env, c) && Stranded(c, id)
    ensures Stranded(Step(env, c, e), id)
  {
    match e
    case Commit(ref, newId, verdict) =>
    case Rewind(pick, fetched, verdict, resolved) =>
      if pick in c.graph.queue && pick in c.graph.segs {
        PopRewindShape(env, c.graph, pick, fetched, verdict);
        var r := RewindSegment(env, PopQueue(c.graph, pick), pick, fetched, verdict);
        RewindSegmentStranded(env, c, pick, fetched, verdict, id);
        ReportStranded(env, c, pick, r, resolved, id);
      }
    case Manage(now, later) =>
      if c.stateSegment.Some? { ManageStranded(env, c, now, later, id); }
    case Stall =>
      if c.stateSegment.Some? && c.graph.segs[c.stateSegment.value].next.Some? {
        ForwardAttached(env, c.graph, c.stateSegment.value);
      }
    case Restart(_, _) =>
  }

  /** A VALID segment without predecessor that is not the state segment and does not hold the head
      stays so for good, restarts included: it is never spliced, never adopted, and no block of it
      ever becomes the head. */
  lemma {:induction false} StrandedForGood(env: Env, c: Chain, es: seq<Event>, id: SegId)
    requires Inv(env, c) && Stranded(c, id)
    ensures Stranded(Run(env, c, es), id)
    decreases |es|
  {
    RunInv(env, c, es);
    if es != [] {
      StrandedForGood(env, c, es[..|es| - 1], id);
      RunInv(env, c, es[..|es| - 1]);
      StepStranded(env, Run(env, c, es[..|es| - 1]), es[|es| - 1], id);
    }
  }

  // ---------------------------------------------------------------------------------------
  // Catching up

  /** A branch on top of `w[0]`: each block names the one before and passes its checks. */
  ghost predicate Branch(env: Env, w: seq<Ref>) {
    && |w| > 1 && Named(env, w)
    && (forall i :: 0 <= i < |w| ==> Known(env, w[i]) && Height(env, w[i]) == Height(env, w[0]) + i)
    && (forall i :: 0 < i < |w| ==> Linked(env, w[i - 1], w[i]))
  }

  /** Segment `id` holds the branch from position `k` up; the blocks below are still unowned and
      `w[0]` is the head of segment `s`. */
  ghost predicate Syncing(env: Env, c: Chain, w: seq<Ref>, k: nat, s: SegId, id: SegId) {
    && Branch(env, w) && 0 < k < |w| && s != id
    && c.head == Some(w[0]) && c.stateSegment == Some(s)
    && s in c.graph.segs && c.graph.segs[s].head == w[0] && Rec(c.graph, w[0]).segment == Some(s)
    && id in c.graph.queue && id in c.graph.segs && Rec(c.graph, w[|w| - 1]).segment == Some(id)
    && c.graph.segs[id] == Seg(id, Disjointed, w[|w| - 1], w[k], Height(env, w[k]), None, None)
    && (forall i :: 0 < i < k ==> Rec(c.graph, w[i]).segment.None?)
  }

  /** The branch is spliced after the head. */
  ghost predicate Synced(c: Chain, w: seq<Ref>, s: SegId, id: SegId) {
    && |w| > 0 && c.head == Some(w[0]) && c.stateSegment == Some(s)
    && s in c.graph.segs && c.graph.segs[s].next == Some(id)
    && id in c.graph.segs && c.graph.segs[id].head == w[|w| - 1]
  }

  /** One rewind of segment `id`, which the application's validator accepts with or without a mark. */
  function Pull(id: SegId, mark: bool): Event {
    Rewind(id, true, Accepted(mark), true)
  }

  function Pulls(id: SegId, marks: seq<bool>): seq<Event>
    decreases |marks|
  {
    if marks == [] then [] else [Pull(id, marks[0])] + Pulls(id, marks[1..])
  }

  lemma PullOne(env: Env, c: Chain, w: seq<Ref>, k: nat, s: SegId, id: SegId)
    requires Syncing(env, c, w, k, s, id) && k > 1
    ensures Syncing(env, Step(env, c, Pull(id, false)), w, k - 1, s, id)
  {
    var g := PopQueue(c.graph, id);
    var b := w[k - 1];
    assert Parent(env, w[k]) == Some(b) && Rec(g, b).segment.None? && Linked(env, w[k - 1], w[k]);
    var h := ExtendTail(env, g, id, b, Accepted(false));
    assert RewindSegment(env, g, id, true, Accepted(false)) == Rewound(h, true);
    assert h.segs[id] == Seg(id, Disjointed, w[|w| - 1], b, Height(env, b), None, None);
    var d := Step(env, c, Pull(id, false));
    assert d == c.(graph := h.(queue := h.queue + {id}));
    forall i | 0 < i < k - 1 ensures Rec(d.graph, w[i]).segment.None? {
      assert Height(env, w[i]) != Height(env, b);
      assert Rec(c.graph, w[i]).segment.None?;
    }
    assert Height(env, w[0]) != Height(env, b) && Height(env, b) != Height(env, w[|w| - 1]);
  }

  /** A marked block settles the segment as VALID before it meets its predecessor. */
  lemma PullMarked(env: Env, c: Chain, w: seq<Ref>, k: nat, s: SegId, id: SegId)
    requires Syncing(env, c, w, k, s, id) && k > 1
    ensures Stranded(Step(env, c, Pull(id, true)), id)
  {
    var g := PopQueue(c.graph, id);
    assert Parent(env, w[k]) == Some(w[k - 1]) && Rec(g, w[k - 1]).segment.None? && Linked(env, w[k - 1], w[k]);
    assert RewindSegment(env, g, id, true, Accepted(true)) == Rewound(ExtendTail(env, g, id, w[k - 1],
      Accepted(true)), true);
  }

  lemma SpliceLast(env: Env, c: Chain, w: seq<Ref>, s: SegId, id: SegId, mark: bool)
    requires Syncing(env, c, w, 1, s, id)
    ensures Synced(Step(env, c, Pull(id, mark)), w, s, id)
  {
    var g := PopQueue(c.graph, id);
    assert Parent(env, w[1]) == Some(w[0]) && Linked(env, w[1 - 1], w[1]);
    assert RewindSegment(env, g, id, true, Accepted(mark)) == Rewound(AppendSegment(env, g, s, id, Accepted(mark)),
      true);
  }

  ghost predicate MarkedBelow(marks: seq<bool>) {
    exists i :: 0 <= i < |marks| - 1 && marks[i]
  }

  lemma {:induction false} PullAll(env: Env, c: Chain, w: seq<Ref>, s: SegId, id: SegId, marks: seq<bool>)
    requires Inv(env, c) && Syncing(env, c, w, |marks|, s, id)
    ensures !MarkedBelow(marks) ==> Synced(Run(env, c, Pulls(id, marks)), w, s, id)
    ensures MarkedBelow(marks) ==> Stranded(Run(env, c, Pulls(id, marks)), id)
    decreases |marks|
  {
    var d := Step(env, c, Pull(id, marks[0]));
    RunFirst(env, c, Pull(id, marks[0]), Pulls(id, marks[1..]));
    StepInv(env, c, Pull(id, marks[0]));
    if |marks| == 1 {
      SpliceLast(env, c, w, s, id, marks[0]);
      assert Pulls(id, marks[1..]) == [];
    } else if marks[0] {
      PullMarked(env, c, w, |marks|, s, id);
      StrandedForGood(env, d, Pulls(id, marks[1..]), id);
    } else {
      PullOne(env, c, w, |marks|, s, id);
      PullAll(env, d, w, s, id, marks[1..]);
      assert MarkedBelow(marks) <==> MarkedBelow(marks[1..]) by {
        if i :| 0 <= i < |marks| - 1 && marks[i] { assert marks[1..][i - 1]; }
        if i :| 0 <= i < |marks[1..]| - 1 && marks[1..][i] { assert marks[i + 1]; }
      }
    }
  }

  /** The newest block of a branch is to arrive at a node whose head is `w[0]` and that owns none of
      the branch. */
  ghost predicate Missing(env: Env, c: Chain, w: seq<Ref>, s: SegId, id: SegId) {
    && Inv(env, c) && Branch(env, w) && |w| > 2 && c.head == Some(w[0]) && c.stateSegment == Some(s)
    && s in c.graph.segs && c.graph.segs[s].head == w[0] && id !in c.graph.segs
    && forall i :: 0 < i < |w| ==> Rec(c.graph, w[i]).segment.None?
  }

  lemma Tip(env: Env, c: Chain, w: seq<Ref>, s: SegId, id: SegId, verdict: Verdict)
    requires Missing(env, c, w, s, id)
    ensures Syncing(env, Step(env, c, Commit(w[|w| - 1], id, verdict)), w, |w| - 1, s, id)
  {
    var n := |w| - 1;
    SetHeadOk(env, c, s);
    assert Parent(env, w[n]) == Some(w[n - 1]) && Rec(c.graph, w[n - 1]).segment.None?;
    var d := Step(env, c, Commit(w[n], id, verdict));
    assert d == c.(graph := NewSegment(env, c.graph, w[n], id));
    forall i | 0 < i < n ensures Rec(d.graph, w[i]).segment.None? {
      assert Height(env, w[i]) != Height(env, w[n]);
    }
    assert Height(env, w[0]) != Height(env, w[n]);
  }

  /** The commit of the newest block and one rewind for each block of the branch. */
  function Sync(w: seq<Ref>, id: SegId, verdict: Verdict, marks: seq<bool>): seq<Event>
    requires w != []
  {
    [Commit(w[|w| - 1], id, verdict)] + Pulls(id, marks)
  }

  lemma SyncRun(env: Env, c: Chain, w: seq<Ref>, s: SegId, id: SegId, verdict: Verdict, marks: seq<bool>)
    requires Missing(env, c, w, s, id) && |marks| == |w| - 1
    ensures var d := Run(env, c, Sync(w, id, verdict, marks));
            && Rec(d.graph, w[|w| - 1]).segment == Some(id)
            && (!MarkedBelow(marks) ==> Synced(d, w, s, id)) && (MarkedBelow(marks) ==> Stranded(d, id))
  {
    var tip := Commit(w[|w| - 1], id, verdict);
    var c1 := Step(env, c, tip);
    Tip(env, c, w, s, id, verdict);
    StepInv(env, c, tip);
    RunFirst(env, c, tip, Pulls(id, marks));
    PullAll(env, c1, w, s, id, marks);
    RunInv(env, c1, Pulls(id, marks));
    assert RecordEvolves(Rec(c1.graph, w[|w| - 1]), Rec(Run(env, c1, Pulls(id, marks)).graph, w[|w| - 1]));
  }

  /** Catching up, exactly: a node told only of the newest block of a branch pulls the missing blocks
      in backwards, one rewind for each block, and ends with the newest block as its head if and only
      if the validator marked none of them before the splice. */
  lemma CatchUpIff(env: Env, c: Chain, w: seq<Ref>, s: SegId, id: SegId, verdict: Verdict, marks: seq<bool>, now: int,
      later: int)
    requires Missing(env, c, w, s, id) && |marks| == |w| - 1
    ensures Step(env, Run(env, c, Sync(w, id, verdict, marks)), Manage(now, later)).head == Some(w[|w| - 1])
            <==> !MarkedBelow(marks)
  {
    SyncRun(env, c, w, s, id, verdict, marks);
    var d := Run(env, c, Sync(w, id, verdict, marks));
    RunInv(env, c, Sync(w, id, verdict, marks));
    if MarkedBelow(marks) {
      StrandedForGood(env, d, [Manage(now, later)], id);
      RunFirst(env, d, Manage(now, later), []);
      assert [Manage(now, later)] + [] == [Manage(now, later)];
      RunInv(env, d, [Manage(now, later)]);
      assert RecordEvolves(Rec(d.graph, w[|w| - 1]), Rec(Run(env, d, [Manage(now, later)]).graph, w[|w| - 1]));
    } else {
      ManageHead(env, d, now, later);
    }
  }

  /** A marked branch is never the head afterwards, whatever happens. */
  lemma MarkedBranchStranded(env: Env, c: Chain, w: seq<Ref>, s: SegId, id: SegId, verdict: Verdict, marks: seq<bool>,
      es: seq<Event>)
    requires Missing(env, c, w, s, id) && |marks| == |w| - 1 && MarkedBelow(marks)
    ensures Run(env, Run(env, c, Sync(w, id, verdict, marks)), es).head != Some(w[|w| - 1])
  {
    SyncRun(env, c, w, s, id, verdict, marks);
    var d := Run(env, c, Sync(w, id, verdict, marks));
    RunInv(env, c, Sync(w, id, verdict, marks));
    StrandedForGood(env, d, es, id);
    RunInv(env, d, es);
    assert RecordEvolves(Rec(d.graph, w[|w| - 1]), Rec(Run(env, d, es).graph, w[|w| - 1]));
  }
}
