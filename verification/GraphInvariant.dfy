/**
 The invariant of the segment graph and its preservation by every graph operation.
 `paths` is the witness: the blocks of each segment, tail first.
 */
module GraphInvariant {
  import opened Blocks
  import opened SegmentGraph

  type Paths = map<SegId, seq<Ref>>

  /** `p` is the duplicate-free run of blocks from tail to head: `NextBlock` leads up, the named
      parent leads down, every block carries the segment's id and only the head has no successor. */
  ghost predicate PathOf(env: Env, g: Graph, seg: Seg, p: seq<Ref>) {
    && |p| > 0 && p[0] == seg.tail && p[|p| - 1] == seg.head
    && (forall i :: 0 <= i < |p| ==> Known(env, p[i]) && Rec(g, p[i]).segment == Some(seg.id))
    && (forall i, j :: 0 <= i < j < |p| ==> p[i] != p[j])
    && (forall i :: 0 < i < |p| ==> Rec(g, p[i - 1]).next == Some(p[i]))
    && Named(env, p)
    && Rec(g, seg.head).next.None?
  }

  /** Every adjacent pair passed the structural checks. The one exception is the lowest pair of
      an INVALID segment without predecessor: the rewind that failed validation put it there. */
  ghost predicate LinksChecked(env: Env, seg: Seg, p: seq<Ref>) {
    forall i :: 0 < i < |p| && (i > 1 || Checked(seg)) ==> Linked(env, p[i - 1], p[i])
  }

  /** Every link of the segment was checked. */
  predicate Checked(seg: Seg) {
    seg.status != Invalid || seg.prev.Some?
  }

  /** A predecessor owns the named parent of the tail, has a successor of its own (which freezes
      its head), and its head passed the structural checks against the tail. */
  ghost predicate PrevOk(env: Env, g: Graph, seg: Seg) {
    seg.prev.Some? ==>
      var q := seg.prev.value;
      && q in g.segs && q != seg.id && g.segs[q].next.Some?
      && Linked(env, g.segs[q].head, seg.tail)
      && Parent(env, seg.tail).Some? && Rec(g, Parent(env, seg.tail).value).segment == Some(q)
  }

  ghost predicate NextOk(g: Graph, seg: Seg) {
    seg.next.Some? ==> seg.next.value in g.segs && g.segs[seg.next.value].prev == Some(seg.id)
  }

  ghost predicate SegOk(env: Env, g: Graph, id: SegId, p: seq<Ref>)
    requires id in g.segs
  {
    var seg := g.segs[id];
    && seg.id == id && seg.tailHeight == Height(env, seg.tail)
    && PathOf(env, g, seg, p) && LinksChecked(env, seg, p)
    && PrevOk(env, g, seg) && NextOk(g, seg)
  }

  ghost predicate SegAt(env: Env, g: Graph, id: SegId, paths: Paths) {
    id in g.segs ==> id in paths && SegOk(env, g, id, paths[id])
  }

  /** A block record belongs to the path of the segment it names, or is empty. */
  ghost predicate RecordOk(g: Graph, r: Ref, paths: Paths) {
    match Rec(g, r).segment
    case None => Rec(g, r).next.None?
    case Some(id) => id in g.segs && id in paths && r in paths[id]
  }

  ghost predicate Shape(env: Env, g: Graph, paths: Paths) {
    && paths.Keys == g.segs.Keys && g.queue <= g.segs.Keys
    && (forall id :: SegAt(env, g, id, paths))
    && (forall r :: RecordOk(g, r, paths))
  }

  ghost predicate Shaped(env: Env, g: Graph) {
    exists paths :: Shape(env, g, paths)
  }

  /** What no operation takes back: a block's segment and successor, a settled status, a
      segment's predecessor, the existence of a successor, and, once there is one, the head. */
  ghost predicate Evolves(g: Graph, h: Graph) {
    && (forall r :: RecordEvolves(Rec(g, r), Rec(h, r)))
    && (forall id :: SegEvolves(g, h, id))
  }

  ghost predicate RecordEvolves(a: Record, b: Record) {
    && (a.segment.Some? ==> b.segment == a.segment)
    && (a.next.Some? ==> b.next == a.next)
  }

  ghost predicate SegEvolves(g: Graph, h: Graph, id: SegId) {
    id in g.segs ==>
    && id in h.segs
    && var s, t := g.segs[id], h.segs[id];
    && (s.status != Disjointed ==> t.status == s.status)
    && (s.prev.Some? ==> t.prev == s.prev && t.tail == s.tail)
    && (s.next.Some? ==> t.next.Some? && t.head == s.head)
  }

  lemma EvolvesTransitive(f: Graph, g: Graph, h: Graph)
    requires Evolves(f, g) && Evolves(g, h)
    ensures Evolves(f, h)
  {
    forall r ensures RecordEvolves(Rec(f, r), Rec(h, r)) {
      assert RecordEvolves(Rec(f, r), Rec(g, r)) && RecordEvolves(Rec(g, r), Rec(h, r));
    }
    forall id ensures SegEvolves(f, h, id) {
      assert SegEvolves(f, g, id) && SegEvolves(g, h, id);
    }
  }

  // ---------------------------------------------------------------------------------------
  // Consequences read off one shaped graph

  /** An owned block without successor is the head of its segment. */
  lemma OpenBlockIsHead(env: Env, g: Graph, paths: Paths, r: Ref)
    requires Shape(env, g, paths) && Rec(g, r).segment.Some? && Rec(g, r).next.None?
    ensures Rec(g, r).segment.value in g.segs && g.segs[Rec(g, r).segment.value].head == r
  {
    var id := Rec(g, r).segment.value;
    assert RecordOk(g, r, paths);
    assert SegAt(env, g, id, paths);
    var p := paths[id];
    forall k | 0 <= k < |p| - 1 ensures Rec(g, p[k]).next.Some? {
      assert Rec(g, p[(k + 1) - 1]).next == Some(p[k + 1]);
    }
  }

  /** The part of a segment's path from position `i` up to its head is a walk, provided the
      lowest pair is not the unchecked one. */
  lemma PathWalk(env: Env, g: Graph, paths: Paths, id: SegId, i: nat)
    requires Shape(env, g, paths) && id in g.segs && i < |paths[id]|
    requires i > 0 || Checked(g.segs[id]) || (|paths[id]| > 1 ==> Linked(env, paths[id][0], paths[id][1]))
    ensures Walk(env, paths[id][i], g.segs[id].head, paths[id][i..])
    ensures Named(env, paths[id][i..])
  {
    assert SegAt(env, g, id, paths);
    var p := paths[id];
    var w := p[i..];
    forall k | 0 < k < |w|
      ensures Linked(env, w[k - 1], w[k]) && Parent(env, w[k]) == Some(w[k - 1])
    {
      assert w[k] == p[i + k] && w[k - 1] == p[i + k - 1];
    }
  }

  // ---------------------------------------------------------------------------------------
  // What carries over to a later graph

  lemma PathKept(env: Env, g: Graph, h: Graph, s: Seg, t: Seg, p: seq<Ref>)
    requires PathOf(env, g, s, p) && t.id == s.id && t.tail == s.tail && t.head == s.head
    requires forall i :: 0 <= i < |p| ==> Rec(h, p[i]) == Rec(g, p[i])
    ensures PathOf(env, h, t, p)
  {
  }

  lemma NeighboursKept(env: Env, g: Graph, h: Graph, s: Seg, t: Seg)
    requires Evolves(g, h) && PrevOk(env, g, s) && NextOk(g, s)
    requires t.id == s.id && t.tail == s.tail && t.prev == s.prev && t.next == s.next
    ensures PrevOk(env, h, t) && NextOk(h, t)
  {
    if s.prev.Some? {
      assert SegEvolves(g, h, s.prev.value);
      var parent := Parent(env, s.tail).value;
      assert RecordEvolves(Rec(g, parent), Rec(h, parent));
    }
    if s.next.Some? { assert SegEvolves(g, h, s.next.value); }
  }

  lemma SegKept(env: Env, g: Graph, h: Graph, k: SegId, p: seq<Ref>)
    requires k in g.segs && k in h.segs && SegOk(env, g, k, p) && Evolves(g, h)
    requires h.segs[k] == g.segs[k]
    requires forall i :: 0 <= i < |p| ==> Rec(h, p[i]) == Rec(g, p[i])
    ensures SegOk(env, h, k, p)
  {
    PathKept(env, g, h, g.segs[k], h.segs[k], p);
    NeighboursKept(env, g, h, g.segs[k], h.segs[k]);
  }

  // ---------------------------------------------------------------------------------------
  // Preservation

  lemma NewSegmentShape(env: Env, g: Graph, paths: Paths, ref: Ref, id: SegId)
    requires Shape(env, g, paths) && Known(env, ref) && Rec(g, ref).segment.None? && id !in g.segs
    ensures Shape(env, NewSegment(env, g, ref, id), paths[id := [ref]])
    ensures Evolves(g, NewSegment(env, g, ref, id))
  {
    var h, ps := NewSegment(env, g, ref, id), paths[id := [ref]];
    assert RecordOk(g, ref, paths);
    forall k ensures SegAt(env, h, k, ps) {
      assert SegAt(env, g, k, paths);
      if k in g.segs { SegKept(env, g, h, k, paths[k]); }
    }
    forall r ensures RecordOk(h, r, ps) {
      assert RecordOk(g, r, paths);
    }
  }

  lemma AppendBlockEvolves(env: Env, g: Graph, paths: Paths, s: SegId, ref: Ref, parent: Ref, verdict: Verdict)
    requires Shape(env, g, paths) && Known(env, ref) && Known(env, parent)
    requires Rec(g, ref).segment.None? && Rec(g, parent).segment == Some(s)
    requires Appendable(env, g, s, ref, parent, verdict)
    ensures Evolves(g, AppendBlock(env, g, s, ref, parent, verdict))
  {
  }

  lemma AppendBlockShape(env: Env, g: Graph, paths: Paths, s: SegId, ref: Ref, parent: Ref, verdict: Verdict)
    requires Shape(env, g, paths) && Known(env, ref) && Known(env, parent)
    requires Rec(g, ref).segment.None? && Rec(g, parent).segment == Some(s) && Parent(env, ref) == Some(parent)
    requires Appendable(env, g, s, ref, parent, verdict)
    ensures Shape(env, AppendBlock(env, g, s, ref, parent, verdict), paths[s := paths[s] + [ref]])
    ensures Evolves(g, AppendBlock(env, g, s, ref, parent, verdict))
  {
    var h, ps := AppendBlock(env, g, s, ref, parent, verdict), paths[s := paths[s] + [ref]];
    AppendBlockEvolves(env, g, paths, s, ref, parent, verdict);
    OpenBlockIsHead(env, g, paths, parent);
    assert RecordOk(g, ref, paths);
    forall k ensures SegAt(env, h, k, ps) {
      assert SegAt(env, g, k, paths);
      if k == s {
        AppendedSegment(env, g, h, s, ref, paths[s]);
      } else if k in g.segs {
        SegKept(env, g, h, k, paths[k]);
      }
    }
    forall r ensures RecordOk(h, r, ps) {
      assert RecordOk(g, r, paths);
      assert ref in ps[s];
    }
  }

  /** The segment that received `ref` on top of its head. */
  lemma AppendedSegment(env: Env, g: Graph, h: Graph, s: SegId, ref: Ref, p: seq<Ref>)
    requires s in g.segs && s in h.segs && SegOk(env, g, s, p) && Evolves(g, h)
    requires Rec(g, ref).segment.None? && Rec(h, ref) == Record(Some(s), None) && g.segs[s].next.None?
    requires Rec(h, g.segs[s].head) == Record(Some(s), Some(ref))
    requires Linked(env, g.segs[s].head, ref) && Parent(env, ref) == Some(g.segs[s].head)
    requires forall r :: r != ref && r != g.segs[s].head ==> Rec(h, r) == Rec(g, r)
    requires h.segs[s] == g.segs[s].(head := ref, status := h.segs[s].status)
    requires h.segs[s].status == Invalid <==> g.segs[s].status == Invalid
    ensures SegOk(env, h, s, p + [ref])
  {
    var q := p + [ref];
    assert forall i :: 0 <= i < |p| ==> p[i] != ref;
    NeighboursKept(env, g, h, g.segs[s], h.segs[s]);
    forall i | 0 < i < |q|
      ensures Rec(h, q[i - 1]).next == Some(q[i]) && Parent(env, q[i]) == Some(q[i - 1])
      ensures i > 1 || h.segs[s].status != Invalid || h.segs[s].prev.Some? ==> Linked(env, q[i - 1], q[i])
    {
      if i < |p| {
        assert q[i - 1] == p[i - 1] && q[i] == p[i] && p[i - 1] != p[|p| - 1];
        assert Rec(h, p[i - 1]) == Rec(g, p[i - 1]);
      } else {
        assert q[i - 1] == g.segs[s].head && q[i] == ref;
      }
    }
  }

  lemma ExtendTailEvolves(env: Env, g: Graph, paths: Paths, id: SegId, b: Ref, verdict: Verdict)
    requires Shape(env, g, paths) && id in g.segs && g.segs[id].status == Disjointed
    requires Known(env, b) && Known(env, g.segs[id].tail) && Parent(env, g.segs[id].tail) == Some(b)
    requires Rec(g, b).segment.None?
    ensures Evolves(g, ExtendTail(env, g, id, b, verdict))
  {
    assert RecordOk(g, b, paths);
    assert SegAt(env, g, id, paths);
  }

  lemma ExtendTailShape(env: Env, g: Graph, paths: Paths, id: SegId, b: Ref, verdict: Verdict)
    requires Shape(env, g, paths) && id in g.segs && g.segs[id].status == Disjointed
    requires Known(env, b) && Known(env, g.segs[id].tail) && Parent(env, g.segs[id].tail) == Some(b)
    requires Rec(g, b).segment.None?
    ensures Shape(env, ExtendTail(env, g, id, b, verdict), paths[id := [b] + paths[id]])
    ensures Evolves(g, ExtendTail(env, g, id, b, verdict))
  {
    var h, ps := ExtendTail(env, g, id, b, verdict), paths[id := [b] + paths[id]];
    ExtendTailEvolves(env, g, paths, id, b, verdict);
    forall k ensures SegAt(env, h, k, ps) {
      assert SegAt(env, g, k, paths);
      if k == id {
        ExtendedSegment(env, g, h, id, b, paths[id]);
      } else if k in g.segs {
        SegKept(env, g, h, k, paths[k]);
      }
    }
    forall r ensures RecordOk(h, r, ps) {
      assert RecordOk(g, r, paths);
      assert b in ps[id];
    }
  }

  /** The segment that received `b` below its tail. */
  lemma ExtendedSegment(env: Env, g: Graph, h: Graph, id: SegId, b: Ref, p: seq<Ref>)
    requires id in g.segs && id in h.segs && SegOk(env, g, id, p) && Evolves(g, h)
    requires g.segs[id].status == Disjointed && Rec(g, b).segment.None?
    requires Known(env, b) && Parent(env, g.segs[id].tail) == Some(b)
    requires Rec(h, b) == Record(Some(id), Some(g.segs[id].tail))
    requires forall r :: r != b ==> Rec(h, r) == Rec(g, r)
    requires h.segs[id] == g.segs[id].(tail := b, tailHeight := Height(env, b), status := h.segs[id].status)
    requires h.segs[id].status != Invalid ==> Linked(env, b, g.segs[id].tail)
    ensures SegOk(env, h, id, [b] + p)
  {
    var q := [b] + p;
    assert forall i :: 0 <= i < |p| ==> p[i] != b;
    assert g.segs[id].prev.None?;
    forall i | 0 < i < |q|
      ensures Rec(h, q[i - 1]).next == Some(q[i]) && Parent(env, q[i]) == Some(q[i - 1])
      ensures i > 1 || h.segs[id].status != Invalid ==> Linked(env, q[i - 1], q[i])
    {
      if i > 1 { assert q[i] == p[i - 1] && q[i - 1] == p[i - 1 - 1]; }
    }
    NeighboursKept(env, g, h, g.segs[id], h.segs[id].(tail := g.segs[id].tail));
  }

  lemma AppendSegmentEvolves(env: Env, g: Graph, paths: Paths, q: SegId, id: SegId, verdict: Verdict)
    requires Shape(env, g, paths) && q in g.segs && id in g.segs && q != id
    requires g.segs[id].status == Disjointed
    requires Known(env, g.segs[q].head) && Known(env, g.segs[id].tail)
    requires Parent(env, g.segs[id].tail).Some? && Rec(g, Parent(env, g.segs[id].tail).value).segment == Some(q)
    ensures Evolves(g, AppendSegment(env, g, q, id, verdict))
  {
    assert SegAt(env, g, id, paths);
  }

  lemma AppendSegmentShape(env: Env, g: Graph, paths: Paths, q: SegId, id: SegId, verdict: Verdict)
    requires Shape(env, g, paths) && q in g.segs && id in g.segs && q != id
    requires g.segs[id].status == Disjointed
    requires Known(env, g.segs[q].head) && Known(env, g.segs[id].tail)
    requires Parent(env, g.segs[id].tail).Some? && Rec(g, Parent(env, g.segs[id].tail).value).segment == Some(q)
    ensures Shape(env, AppendSegment(env, g, q, id, verdict), paths)
    ensures Evolves(g, AppendSegment(env, g, q, id, verdict))
  {
    var h := AppendSegment(env, g, q, id, verdict);
    AppendSegmentEvolves(env, g, paths, q, id, verdict);
    forall k ensures SegAt(env, h, k, paths) {
      assert SegAt(env, g, k, paths);
      if k == id || k == q {
        PathKept(env, g, h, g.segs[k], h.segs[k], paths[k]);
        NeighboursKept(env, g, h, g.segs[k], h.segs[k].(prev := g.segs[k].prev, next := g.segs[k].next));
      } else if k in g.segs {
        SegKept(env, g, h, k, paths[k]);
      }
    }
    forall r ensures RecordOk(h, r, paths) {
      assert RecordOk(g, r, paths);
    }
  }

  lemma MarkValidShape(env: Env, g: Graph, paths: Paths, id: SegId)
    requires Shape(env, g, paths) && id in g.segs && g.segs[id].status == Disjointed
    ensures Shape(env, MarkValid(g, id), paths)
    ensures Evolves(g, MarkValid(g, id))
  {
    var h := MarkValid(g, id);
    forall k ensures SegAt(env, h, k, paths) {
      assert SegAt(env, g, k, paths);
      if k in g.segs {
        PathKept(env, g, h, g.segs[k], h.segs[k], paths[k]);
        NeighboursKept(env, g, h, g.segs[k], h.segs[k]);
      }
    }
    forall r ensures RecordOk(h, r, paths) {
      assert RecordOk(g, r, paths);
    }
  }

  lemma QueueShape(env: Env, g: Graph, paths: Paths, queue: set<SegId>)
    requires Shape(env, g, paths) && queue <= g.segs.Keys
    ensures Shape(env, g.(queue := queue), paths) && Evolves(g, g.(queue := queue))
  {
    var h := g.(queue := queue);
    forall k ensures SegAt(env, h, k, paths) {
      assert SegAt(env, g, k, paths);
      if k in g.segs { SegKept(env, g, h, k, paths[k]); }
    }
    forall r ensures RecordOk(h, r, paths) {
      assert RecordOk(g, r, paths);
    }
  }
}
