/**
 The segment graph: block records, segments and the rewind queue, with the operations of
 segment/segment.go and segment/segment_store.go as functions on the persisted state.
 The classes of module Node are proved to compute exactly these functions.
 */
module SegmentGraph {
  import opened Blocks

  type SegId = int

  datatype Status = Disjointed | Valid | Invalid

  /** The small mutable record kept beside each block. */
  datatype Record = Record(segment: Option<SegId>, next: Option<Ref>)

  /** `tailHeight` is the height held in TailBlockRound. */
  datatype Seg = Seg(
    id: SegId,
    status: Status,
    head: Ref,
    tail: Ref,
    tailHeight: nat,
    prev: Option<SegId>,
    next: Option<SegId>)

  datatype Graph = Graph(records: map<Ref, Record>, segs: map<SegId, Seg>, queue: set<SegId>)

  /** A block without a stored record reads as the empty record. */
  function Rec(g: Graph, r: Ref): Record {
    if r in g.records then g.records[r] else Record(None, None)
  }

  function Marked(status: Status, v: Validation): Status {
    if v == Passed(true) && status != Invalid then Valid else status
  }

  // ---------------------------------------------------------------------------------------
  // A block arrives

  function NewSegment(env: Env, g: Graph, ref: Ref, id: SegId): Graph {
    Graph(
      g.records[ref := Rec(g, ref).(segment := Some(id))],
      g.segs[id := Seg(id, Disjointed, ref, ref, Height(env, ref), None, None)],
      g.queue + {id})
  }

  /** The guard of AppendBlock: the parent has no successor, its segment has none, and the
      block passes validation. Otherwise nothing is written. */
  predicate Appendable(env: Env, g: Graph, s: SegId, ref: Ref, parent: Ref, verdict: Verdict)
    requires Known(env, ref) && Known(env, parent)
  {
    && Rec(g, parent).next.None?
    && s in g.segs && g.segs[s].next.None?
    && ValidateChild(env, parent, ref, verdict).Passed?
  }

  /** AppendBlock reports no error: the block was appended, or its header already follows the parent. */
  predicate AppendOk(env: Env, g: Graph, s: SegId, ref: Ref, parent: Ref, verdict: Verdict)
    requires Known(env, ref) && Known(env, parent)
  {
    || Appendable(env, g, s, ref, parent, verdict)
    || (var next := Rec(g, parent).next;
        next.Some? && next.value in env.blocks && env.blocks[next.value] == env.blocks[ref])
  }

  function AppendBlock(env: Env, g: Graph, s: SegId, ref: Ref, parent: Ref, verdict: Verdict): Graph
    requires Known(env, ref) && Known(env, parent)
  {
    if !Appendable(env, g, s, ref, parent, verdict) then g
    else
      var v := ValidateChild(env, parent, ref, verdict);
      var seg := g.segs[s];
      var records := g.records[parent := Rec(g, parent).(next := Some(ref))];
      g.(records := records[ref := Rec(g, ref).(segment := Rec(g, parent).segment)],
         segs := g.segs[s := seg.(head := ref, status := Marked(seg.status, v))])
  }

  /** HandleBlockCommit; `id` is the fresh identifier a new segment would get. */
  function CommitBlock(env: Env, g: Graph, ref: Ref, id: SegId, verdict: Verdict): Graph {
    if !Known(env, ref) || Rec(g, ref).segment.Some? then g
    else match Parent(env, ref)
      case None => g
      case Some(parent) =>
        if !Known(env, parent) then g
        else match Rec(g, parent).segment
          case Some(s) => AppendBlock(env, g, s, ref, parent, verdict)
          case None => NewSegment(env, g, ref, id)
  }

  /** HandleBlockCommit reports no error. */
  predicate CommitOk(env: Env, g: Graph, ref: Ref, verdict: Verdict) {
    && Known(env, ref)
    && (|| Rec(g, ref).segment.Some?
        || (&& Parent(env, ref).Some? && Known(env, Parent(env, ref).value)
            && var parent := Parent(env, ref).value;
            Rec(g, parent).segment.Some? ==> AppendOk(env, g, Rec(g, parent).segment.value, ref, parent, verdict)))
  }

  // ---------------------------------------------------------------------------------------
  // Rewinding

  /** The outcome of Segment.RewindOnce; an error leaves the graph as it was. */
  datatype Rewound = Rewound(graph: Graph, ok: bool)

  /** The branch that pulls the unowned parent `b` of the tail into the segment. */
  function ExtendTail(env: Env, g: Graph, id: SegId, b: Ref, verdict: Verdict): Graph
    requires id in g.segs && Known(env, b) && Known(env, g.segs[id].tail)
  {
    var seg := g.segs[id];
    var v := ValidateChild(env, b, seg.tail, verdict);
    var status := if v.Refused? then Invalid else Marked(seg.status, v);
    g.(records := g.records[b := Record(Some(id), Some(seg.tail))],
       segs := g.segs[id := seg.(tail := b, tailHeight := Height(env, b), status := status)])
  }

  /** `q.AppendSegment(id)`: splice `id` after `q`, or mark it invalid. The status the
      validator asked for is overwritten by the predecessor's. */
  function AppendSegment(env: Env, g: Graph, q: SegId, id: SegId, verdict: Verdict): Graph
    requires q in g.segs && id in g.segs && q != id
    requires Known(env, g.segs[q].head) && Known(env, g.segs[id].tail)
  {
    var s, n := g.segs[q], g.segs[id];
    if ValidateChild(env, s.head, n.tail, verdict).Refused? then
      g.(segs := g.segs[id := n.(status := Invalid)])
    else
      g.(segs := g.segs[id := n.(status := s.status, prev := Some(q))][q := s.(next := Some(id))])
  }

  function RewindSegment(env: Env, g: Graph, id: SegId, fetched: bool, verdict: Verdict): Rewound
    requires id in g.segs
  {
    var seg := g.segs[id];
    if seg.status != Disjointed then Rewound(g, true)
    else if !fetched || !Known(env, seg.tail) then Rewound(g, false)
    else match Parent(env, seg.tail)
      case None => Rewound(g, false)
      case Some(b) =>
        if !Known(env, b) then Rewound(g, false)
        else match Rec(g, b).segment
          case None => Rewound(ExtendTail(env, g, id, b, verdict), true)
          case Some(q) =>
            if q == id || q !in g.segs || !Known(env, g.segs[q].head) then Rewound(g, false)
            else Rewound(AppendSegment(env, g, q, id, verdict), true)
  }

  /** The segment that SegmentStore.RewindOnce reports and possibly queues again. */
  function RewindTarget(g: Graph, pick: SegId): SegId {
    if pick in g.segs && g.segs[pick].prev.Some? then g.segs[pick].prev.value else pick
  }

  function PopQueue(g: Graph, pick: SegId): Graph {
    g.(queue := g.queue - {pick})
  }

  function PushIfDisjointed(g: Graph, id: SegId): Graph {
    if id in g.segs && g.segs[id].status == Disjointed then g.(queue := g.queue + {id}) else g
  }

  function MarkValid(g: Graph, id: SegId): Graph
    requires id in g.segs
  {
    g.(segs := g.segs[id := g.segs[id].(status := Valid)])
  }
}
