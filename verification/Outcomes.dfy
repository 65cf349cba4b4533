/**
 What one operation on the segment graph leaves behind, record by record and segment by segment: the
 arrival of a block (chain/chain.go, segment/segment.go) and one rewind (segment/segment_store.go).
 */
module Outcomes {
  import opened Blocks
  import opened SegmentGraph
  import opened GraphInvariant
  import opened ChainModel

  // ---------------------------------------------------------------------------------------
  // What changes and what does not

  ghost predicate SegsExcept(g: Graph, h: Graph, changed: set<SegId>) {
    h.segs.Keys == g.segs.Keys && forall k :: k in g.segs && k !in changed ==> h.segs[k] == g.segs[k]
  }

  ghost predicate RecordsExcept(g: Graph, h: Graph, changed: set<Ref>) {
    forall r :: r !in changed ==> Rec(h, r) == Rec(g, r)
  }

  /** The child passes on the parent: every structural check holds and the application accepts. */
  ghost predicate Passes(env: Env, parent: Ref, child: Ref, verdict: Verdict) {
    Linked(env, parent, child) && verdict != Rejected
  }

  /** What a mark makes of a status. */
  ghost function AfterMark(status: Status, verdict: Verdict): Status {
    match (status, verdict)
    case (Disjointed, Accepted(true)) => Valid
    case (s, _) => s
  }

  // ---------------------------------------------------------------------------------------
  // A block arrives

  /** A block that is unknown, owned already, or names no known parent changes nothing. */
  lemma ArrivalIgnored(env: Env, g: Graph, ref: Ref, id: SegId, verdict: Verdict)
    requires !Known(env, ref) || Rec(g, ref).segment.Some? || Parent(env, ref).None?
             || !Known(env, Parent(env, ref).value)
    ensures CommitBlock(env, g, ref, id, verdict) == g
    ensures CommitOk(env, g, ref, verdict) <==> Known(env, ref) && Rec(g, ref).segment.Some?
  {
  }

  /** On a parent that no segment owns, the block opens a segment of its own, which is queued. */
  lemma ArrivalOpens(env: Env, g: Graph, ref: Ref, id: SegId, verdict: Verdict, parent: Ref)
    requires Known(env, ref) && Rec(g, ref).segment.None? && Parent(env, ref) == Some(parent) && Known(env, parent)
    requires Rec(g, parent).segment.None? && id !in g.segs
    ensures var h := CommitBlock(env, g, ref, id, verdict);
            && h.segs.Keys == g.segs.Keys + {id} && (forall k :: k in g.segs ==> h.segs[k] == g.segs[k])
            && h.segs[id] == Seg(id, Disjointed, ref, ref, Height(env, ref), None, None)
            && Rec(h, ref) == Record(Some(id), Rec(g, ref).next) && RecordsExcept(g, h, {ref})
            && h.queue == g.queue + {id}
    ensures CommitOk(env, g, ref, verdict)
  {
  }

  /** On a parent that segment `s` owns, the block is appended exactly if it passes and neither the parent
      nor the segment has a successor. The segment then ends at the block, and is VALID if the validator
      marked the block and the segment was not INVALID; nothing else about it changes. */
  lemma ArrivalAppends(env: Env, g: Graph, ref: Ref, id: SegId, verdict: Verdict, parent: Ref, s: SegId)
    requires Shaped(env, g) && Known(env, ref) && Rec(g, ref).segment.None? && id !in g.segs
    requires Parent(env, ref) == Some(parent) && Known(env, parent) && Rec(g, parent).segment == Some(s)
    ensures s in g.segs && s in CommitBlock(env, g, ref, id, verdict).segs
    ensures var h, seg := CommitBlock(env, g, ref, id, verdict), g.segs[s];
            if Rec(g, parent).next.None? && seg.next.None? && Passes(env, parent, ref, verdict) then
              && h.segs[s] == Seg(s, AfterMark(seg.status, verdict), ref, seg.tail, seg.tailHeight, seg.prev, None)
              && SegsExcept(g, h, {s})
              && Rec(h, parent) == Record(Some(s), Some(ref)) && Rec(h, ref) == Record(Some(s), None)
              && RecordsExcept(g, h, {parent, ref}) && h.queue == g.queue
            else h == g
  {
    var paths :| Shape(env, g, paths);
    assert RecordOk(g, parent, paths) && RecordOk(g, ref, paths);
    assert SegAt(env, g, s, paths);
    var h := CommitBlock(env, g, ref, id, verdict);
    assert parent != ref;
  }

  /** It is reported as an error unless it was appended or its header already follows the parent. */
  lemma ArrivalOk(env: Env, g: Graph, ref: Ref, verdict: Verdict, parent: Ref, s: SegId)
    requires Shaped(env, g) && Known(env, ref) && Rec(g, ref).segment.None?
    requires Parent(env, ref) == Some(parent) && Known(env, parent) && Rec(g, parent).segment == Some(s)
    ensures s in g.segs
    ensures CommitOk(env, g, ref, verdict) <==>
            match Rec(g, parent).next
            case None => g.segs[s].next.None? && Passes(env, parent, ref, verdict)
            case Some(b) => b in env.blocks && env.blocks[b] == env.blocks[ref]
  {
    var paths :| Shape(env, g, paths);
    assert RecordOk(g, parent, paths);
  }

  // ---------------------------------------------------------------------------------------
  // A rewind

  /** A settled segment needs no rewind; one whose tail has no known parent cannot be rewound. */
  lemma RewindIdle(env: Env, g: Graph, pick: SegId, fetched: bool, verdict: Verdict)
    requires Shaped(env, g) && pick in g.segs
    ensures var r, seg := RewindSegment(env, g, pick, fetched, verdict), g.segs[pick];
            && (seg.status != Disjointed ==> r == Rewound(g, true))
            && (seg.status == Disjointed && !fetched ==> r == Rewound(g, false))
            && (seg.status == Disjointed && Parent(env, seg.tail).None? ==> r == Rewound(g, false))
            && (seg.status == Disjointed && Parent(env, seg.tail).Some? && !Known(env, Parent(env, seg.tail).value) ==>
                  r == Rewound(g, false))
  {
    var paths :| Shape(env, g, paths);
    assert SegAt(env, g, pick, paths);
  }

  /** A parent that no segment owns is pulled in below the tail, whether the link passes or not; it
      settles the segment as INVALID if it does not, and as VALID if the validator marks it. */
  lemma RewindPulls(env: Env, g: Graph, pick: SegId, verdict: Verdict, b: Ref)
    requires Shaped(env, g) && pick in g.segs && g.segs[pick].status == Disjointed
    requires Parent(env, g.segs[pick].tail) == Some(b) && Known(env, b) && Rec(g, b).segment.None?
    ensures var r, seg := RewindSegment(env, g, pick, true, verdict), g.segs[pick];
            var h := r.graph;
            && r.ok && SegsExcept(g, h, {pick}) && pick in h.segs
            && h.segs[pick] == Seg(pick, if Passes(env, b, seg.tail, verdict) then AfterMark(Disjointed, verdict)
                                         else Invalid, seg.head, b, Height(env, b), seg.prev, seg.next)
            && Rec(h, b) == Record(Some(pick), Some(seg.tail)) && RecordsExcept(g, h, {b}) && h.queue == g.queue
  {
    var paths :| Shape(env, g, paths);
    assert SegAt(env, g, pick, paths);
  }

  /** Meeting another segment `q`: if the tail passes on the head of `q`, the two are linked and the upper
      one takes the status of `q`, whatever the validator said; if not, the upper one is INVALID. */
  lemma RewindMeets(env: Env, g: Graph, pick: SegId, verdict: Verdict, b: Ref, q: SegId)
    requires Shaped(env, g) && pick in g.segs && g.segs[pick].status == Disjointed && q != pick
    requires Parent(env, g.segs[pick].tail) == Some(b) && Known(env, b) && Rec(g, b).segment == Some(q)
    ensures q in g.segs
    ensures var r, n, s := RewindSegment(env, g, pick, true, verdict), g.segs[pick], g.segs[q];
            var h := r.graph;
            && r.ok && SegsExcept(g, h, {pick, q}) && RecordsExcept(g, h, {}) && h.queue == g.queue
            && pick in h.segs && q in h.segs
            && if Passes(env, s.head, n.tail, verdict) then
                 && h.segs[pick] == Seg(pick, s.status, n.head, n.tail, n.tailHeight, Some(q), n.next)
                 && h.segs[q] == Seg(q, s.status, s.head, s.tail, s.tailHeight, s.prev, Some(pick))
               else
                 && h.segs[pick] == Seg(pick, Invalid, n.head, n.tail, n.tailHeight, n.prev, n.next)
                 && h.segs[q] == s
  {
    var paths :| Shape(env, g, paths);
    assert SegAt(env, g, pick, paths) && RecordOk(g, b, paths);
    assert SegAt(env, g, q, paths);
  }

  /** Meeting itself is an error. */
  lemma RewindMeetsItself(env: Env, g: Graph, pick: SegId, fetched: bool, verdict: Verdict, b: Ref)
    requires pick in g.segs && g.segs[pick].status == Disjointed
    requires Parent(env, g.segs[pick].tail) == Some(b) && Rec(g, b).segment == Some(pick)
    ensures RewindSegment(env, g, pick, fetched, verdict) == Rewound(g, false)
  {
  }

  // ---------------------------------------------------------------------------------------
  // The store's part of a rewind

  /** The segment reported after rewinding `pick`: its predecessor if it has one. */
  ghost function Reported(g: Graph, pick: SegId): SegId
    requires pick in g.segs
  {
    match g.segs[pick].prev
    case None => pick
    case Some(q) => q
  }

  /** A node with a head takes over what the rewind left, without the rewound segment in the queue, and
      queues the reported segment again exactly while it is DISJOINTED; a failed rewind loses it. */
  lemma RewindRequeues(env: Env, c: Chain, e: Event)
    requires e.Rewind? && e.pick in c.graph.queue && e.pick in c.graph.segs && c.head.Some?
    ensures e.pick in Pulled(env, c, e).segs
    ensures var g := Pulled(env, c, e);
            var ok := RewindSegment(env, c.graph.(queue := c.graph.queue - {e.pick}), e.pick, e.fetched, e.verdict).ok;
            var t := Reported(g, e.pick);
            && g == RewindSegment(env, c.graph.(queue := c.graph.queue - {e.pick}), e.pick, e.fetched, e.verdict).graph
            && Step(env, c, e) == c.(graph := g.(queue := c.graph.queue - {e.pick} +
                 if ok && t in g.segs && g.segs[t].status == Disjointed then {t} else {}))
  {
  }

  /** A rewind of what is not queued does nothing. */
  lemma RewindOfNothing(env: Env, c: Chain, e: Event)
    requires e.Rewind? && !(e.pick in c.graph.queue && e.pick in c.graph.segs)
    ensures Step(env, c, e) == c
  {
  }
}
