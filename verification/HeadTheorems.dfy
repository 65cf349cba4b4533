/**
 How the chain head moves: always up along validated links and, when headers state honest
 heights, always to a descendant of the block it was on.
 */
module HeadTheorems {
  import opened Blocks
  import opened SegmentGraph
  import opened GraphInvariant
  import opened ChainModel
  import opened ChainInvariant

  // ---------------------------------------------------------------------------------------
  // Splices

  lemma {:induction false} NamedHeights(env: Env, p: seq<Ref>, i: nat, j: nat)
    requires WellHeighted(env) && Named(env, p) && i <= j < |p|
    requires forall k :: 0 <= k < |p| ==> Known(env, p[k])
    ensures Height(env, p[j]) == Height(env, p[i]) + j - i
    decreases j
  {
    if i < j {
      NamedHeights(env, p, i, j - 1);
      assert Parent(env, p[j]) == Some(p[j - 1]);
    }
  }

  /** The height check against the predecessor's head forces the named parent of a spliced tail
      to be that head. The splice itself never compares the two. */
  lemma SpliceNamesHead(env: Env, g: Graph, paths: Paths, id: SegId)
    requires Shape(env, g, paths) && WellHeighted(env)
    requires id in g.segs && g.segs[id].prev.Some?
    ensures g.segs[id].prev.value in g.segs
    ensures Parent(env, g.segs[id].tail) == Some(g.segs[g.segs[id].prev.value].head)
  {
    assert SegAt(env, g, id, paths);
    var q := g.segs[id].prev.value;
    var b := Parent(env, g.segs[id].tail).value;
    assert SegAt(env, g, q, paths) && RecordOk(g, b, paths);
    var p := paths[q];
    var j :| 0 <= j < |p| && p[j] == b;
    NamedHeights(env, p, j, |p| - 1);
  }

  /** Without honest heights: an attached tail names its predecessor's head exactly when its
      header states the height after that of the block it names. */
  lemma SpliceNamesHeadIff(env: Env, g: Graph, id: SegId)
    requires Shaped(env, g) && id in g.segs && g.segs[id].prev.Some?
    requires g.segs[id].prev.value in g.segs ==> Checked(g.segs[g.segs[id].prev.value])
    ensures g.segs[id].prev.value in g.segs && Parent(env, g.segs[id].tail).Some?
    ensures Parent(env, g.segs[id].tail) == Some(g.segs[g.segs[id].prev.value].head)
            <==> Height(env, g.segs[id].tail) == Height(env, Parent(env, g.segs[id].tail).value) + 1
  {
    var paths :| Shape(env, g, paths);
    assert SegAt(env, g, id, paths);
    var q := g.segs[id].prev.value;
    var b := Parent(env, g.segs[id].tail).value;
    assert SegAt(env, g, q, paths) && RecordOk(g, b, paths);
    var p := paths[q];
    var j :| 0 <= j < |p| && p[j] == b;
    PathWalk(env, g, paths, q, j);
    WalkFacts(env, b, g.segs[q].head, p[j..]);
  }

  lemma PredecessorHasNext(env: Env, g: Graph, n: SegId)
    requires Shaped(env, g) && n in g.segs && g.segs[n].prev.Some?
    ensures g.segs[n].prev.value in g.segs && g.segs[g.segs[n].prev.value].next.Some?
  {
    var paths :| Shape(env, g, paths);
    assert SegAt(env, g, n, paths);
  }

  /** From the head of a predecessor through the splice to the head of an attached segment. */
  lemma SpliceWalk(env: Env, g: Graph, paths: Paths, n: SegId) returns (w: seq<Ref>)
    requires Shape(env, g, paths) && n in g.segs && g.segs[n].prev.Some?
    ensures g.segs[n].prev.value in g.segs
    ensures |w| > 1 && Walk(env, g.segs[g.segs[n].prev.value].head, g.segs[n].head, w)
    ensures WellHeighted(env) ==> Named(env, w)
  {
    assert SegAt(env, g, n, paths);
    var s := g.segs[n].prev.value;
    assert SegAt(env, g, s, paths);
    PathWalk(env, g, paths, n, 0);
    assert paths[n][0..] == paths[n];
    var v := [g.segs[s].head, g.segs[n].tail];
    if WellHeighted(env) { SpliceNamesHead(env, g, paths, n); }
    WalkJoin(env, g.segs[s].head, g.segs[n].tail, g.segs[n].head, v, paths[n]);
    w := v + paths[n][1..];
  }

  /** From the head of a segment up any number of segment links. */
  lemma {:induction false} ClimbWalk(env: Env, g: Graph, paths: Paths, s: SegId, t: SegId, k: nat)
    returns (w: seq<Ref>)
    requires Shape(env, g, paths) && t in g.segs && Climbs(g, s, t, k)
    ensures s in g.segs && |w| > k && Walk(env, g.segs[s].head, g.segs[t].head, w)
    ensures WellHeighted(env) ==> Named(env, w)
    decreases k
  {
    if k == 0 {
      assert SegAt(env, g, t, paths);
      w := [g.segs[t].head];
    } else {
      var v := SpliceWalk(env, g, paths, t);
      var q := g.segs[t].prev.value;
      w := ClimbWalk(env, g, paths, s, q, k - 1);
      WalkJoin(env, g.segs[s].head, g.segs[q].head, g.segs[t].head, w, v);
      w := w + v[1..];
    }
  }

  // ---------------------------------------------------------------------------------------
  // Segment links

  /** Following SegmentNext `k` times. */
  ghost function NthSegment(g: Graph, s: SegId, k: nat): Option<SegId>
    decreases k
  {
    if k == 0 then Some(s)
    else match NthSegment(g, s, k - 1)
      case None => None
      case Some(t) => if t in g.segs then g.segs[t].next else None
  }

  /** Head heights strictly increase along SegmentNext, so no chain of segments closes. */
  lemma {:induction false} SegmentHeightsRise(env: Env, g: Graph, s: SegId, k: nat)
    requires Shaped(env, g) && s in g.segs && NthSegment(g, s, k).Some?
    ensures NthSegment(g, s, k).value in g.segs
    ensures Height(env, g.segs[NthSegment(g, s, k).value].head) >= Height(env, g.segs[s].head) + k
    ensures k > 0 ==> NthSegment(g, s, k) != Some(s)
    decreases k
  {
    if k > 0 {
      SegmentHeightsRise(env, g, s, k - 1);
      var t := NthSegment(g, s, k - 1).value;
      var paths :| Shape(env, g, paths);
      assert SegAt(env, g, t, paths);
      var w := SpliceWalk(env, g, paths, g.segs[t].next.value);
      WalkFacts(env, g.segs[t].head, g.segs[g.segs[t].next.value].head, w);
    }
  }

  /** A segment that is not INVALID, or is attached, is uniform: one genesis, one configuration, times that do not
      go back, and as many blocks as its heights span. */
  lemma ValidatedSegment(env: Env, g: Graph, paths: Paths, id: SegId, i: nat)
    requires Shape(env, g, paths) && id in g.segs && Checked(g.segs[id]) && i < |paths[id]|
    ensures var p := paths[id];
            && Known(env, p[i]) && Known(env, g.segs[id].head)
            && Height(env, g.segs[id].head) == g.segs[id].tailHeight + |p| - 1
            && Height(env, p[i]) == g.segs[id].tailHeight + i
            && HeaderOf(env, p[i]).genesisRef == HeaderOf(env, g.segs[id].head).genesisRef
            && HeaderOf(env, p[i]).chainConfigRef == HeaderOf(env, g.segs[id].head).chainConfigRef
            && HeaderOf(env, p[i]).timestamp <= HeaderOf(env, g.segs[id].head).timestamp
            && (i + 1 < |p| ==> Linked(env, p[i], p[i + 1]))
  {
    var p := paths[id];
    assert SegAt(env, g, id, paths);
    PathWalk(env, g, paths, id, 0);
    PathWalk(env, g, paths, id, i);
    WalkFacts(env, p[0], g.segs[id].head, p[0..]);
    WalkFacts(env, p[i], g.segs[id].head, p[i..]);
    assert i + 1 < |p| ==> Linked(env, p[(i + 1) - 1], p[i + 1]);
  }

  // ---------------------------------------------------------------------------------------
  // The head

  /** From a block above which everything is checked up to the head of a segment above its own. */
  lemma LeadWalk(env: Env, g: Graph, h: Ref, t: SegId) returns (w: seq<Ref>)
    requires Shaped(env, g) && t in g.segs && HeadAt(env, g, h, t)
    ensures Walk(env, h, g.segs[t].head, w)
    ensures WellHeighted(env) ==> Named(env, w)
  {
    var paths :| Shape(env, g, paths);
    var s := Rec(g, h).segment.value;
    assert RecordOk(g, h, paths);
    assert SegAt(env, g, s, paths);
    var p := paths[s];
    var i :| 0 <= i < |p| && p[i] == h;
    PathWalk(env, g, paths, s, i);
    var k: nat :| Climbs(g, s, t, k);
    var v := ClimbWalk(env, g, paths, s, t, k);
    WalkJoin(env, h, g.segs[s].head, g.segs[t].head, p[i..], v);
    w := p[i..] + v[1..];
  }

  lemma ManageWalk(env: Env, c: Chain, now: int, later: int) returns (w: seq<Ref>)
    requires Inv(env, c) && c.head.Some?
    ensures ManageStateOnce(env, c, now, later).head.Some?
    ensures Walk(env, c.head.value, ManageStateOnce(env, c, now, later).head.value, w)
    ensures WellHeighted(env) ==> Named(env, w)
  {
    ManageHead(env, c, now, later);
    ForwardInSegs(env, c.graph, c.stateSegment.value);
    LeadsForward(env, c.graph, Rec(c.graph, c.head.value).segment.value, c.stateSegment.value);
    w := LeadWalk(env, c.graph, c.head.value, Forward(c.graph, c.stateSegment.value));
  }

  /** Only manageStateOnce moves a head that is set, and it moves it along a walk. */
  lemma StepWalk(env: Env, c: Chain, e: Event) returns (w: seq<Ref>)
    requires Inv(env, c) && c.head.Some? && !e.Restart?
    ensures Step(env, c, e).head.Some?
    ensures Walk(env, c.head.value, Step(env, c, e).head.value, w)
    ensures WellHeighted(env) ==> Named(env, w)
  {
    if e.Manage? {
      w := ManageWalk(env, c, e.now, e.later);
    } else {
      w := [c.head.value];
    }
  }

  /** Between restarts the head only climbs: there is a walk of validated links from any earlier
      head to any later one. */
  lemma {:induction false} RunWalk(env: Env, c: Chain, es: seq<Event>) returns (w: seq<Ref>)
    requires Inv(env, c) && c.head.Some? && NoRestart(es)
    ensures Run(env, c, es).head.Some?
    ensures Walk(env, c.head.value, Run(env, c, es).head.value, w)
    ensures WellHeighted(env) ==> Named(env, w)
    decreases |es|
  {
    if es == [] {
      w := [c.head.value];
    } else {
      var fs := es[..|es| - 1];
      w := RunWalk(env, c, fs);
      RunInv(env, c, fs);
      var d := Run(env, c, fs);
      var v := StepWalk(env, d, es[|es| - 1]);
      WalkJoin(env, c.head.value, d.head.value, Run(env, c, es).head.value, w, v);
      w := w + v[1..];
    }
  }

  /** `b` is above `a`, and the difference of their heights is the number of parents between them. */
  ghost predicate Descends(env: Env, a: Ref, b: Ref) {
    Height(env, a) <= Height(env, b) && NthParent(env, b, Height(env, b) - Height(env, a)) == Some(a)
  }

  lemma WalkAncestry(env: Env, a: Ref, b: Ref, w: seq<Ref>)
    requires Walk(env, a, b, w) && Named(env, w) && Known(env, a)
    ensures Descends(env, a, b)
  {
    WalkFacts(env, a, b, w);
    NamedWalkAncestor(env, w);
  }

  /** No rollback: with honest heights, every later head of a run descends from every earlier one
      through LastBlockRef, splices included; the height difference is the number of hops. */
  lemma {:induction false} NoRollback(env: Env, c: Chain, es: seq<Event>)
    requires Inv(env, c) && c.head.Some? && NoRestart(es) && WellHeighted(env)
    ensures var d := Run(env, c, es);
            && d.head.Some? && Descends(env, c.head.value, d.head.value)
            && IsAncestor(env, c.head.value, d.head.value)
  {
    var w := RunWalk(env, c, es);
    WalkAncestry(env, c.head.value, Run(env, c, es).head.value, w);
  }

  /** Head heights only go up, whatever heights the headers state: the height never falls and
      an unchanged height means an unchanged head. */
  lemma {:induction false} HeadHeightsRise(env: Env, c: Chain, es: seq<Event>)
    requires Inv(env, c) && c.head.Some? && NoRestart(es)
    ensures var d := Run(env, c, es);
            && d.head.Some?
            && (d.head == c.head || Height(env, d.head.value) > Height(env, c.head.value))
  {
    var w := RunWalk(env, c, es);
    WalkFacts(env, c.head.value, Run(env, c, es).head.value, w);
  }

  // ---------------------------------------------------------------------------------------
  // Exactly when a move over a splice keeps the branch

  /** No block is its own ancestor: references are digests of what they refer to. */
  ghost predicate AcyclicParents(env: Env) {
    forall r, n: nat :: n > 0 ==> NthParent(env, r, n) != Some(r)
  }

  lemma {:induction false} NthParentAdd(env: Env, r: Ref, a: nat, b: nat)
    requires NthParent(env, r, a).Some?
    ensures NthParent(env, r, a + b) == NthParent(env, NthParent(env, r, a).value, b)
    decreases a
  {
    if a > 0 { NthParentAdd(env, Parent(env, r).value, a - 1, b); }
  }

  lemma NamedSlice(env: Env, p: seq<Ref>, a: nat, b: nat)
    requires Named(env, p) && a <= b <= |p|
    ensures Named(env, p[a..b])
  {
    forall k | 0 < k < b - a ensures Parent(env, p[a..b][k]) == Some(p[a..b][k - 1]) {
      assert Parent(env, p[a + k]) == Some(p[a + k - 1]);
    }
  }

  /** Below a block of a segment come the blocks under it and then the block the tail names. */
  lemma BelowBlock(env: Env, g: Graph, paths: Paths, t: SegId, j: nat, i: nat)
    requires Shape(env, g, paths) && t in g.segs && j < |paths[t]| && i <= j + 1
    ensures NthParent(env, paths[t][j], i) == if i <= j then Some(paths[t][j - i]) else Parent(env, g.segs[t].tail)
  {
    var p := paths[t];
    assert SegAt(env, g, t, paths);
    if i <= j {
      NamedSlice(env, p, j - i, j + 1);
      NamedWalkAncestor(env, p[j - i..j + 1]);
    } else {
      NamedSlice(env, p, 0, j + 1);
      NamedWalkAncestor(env, p[0..j + 1]);
      NthParentAdd(env, p[j], j, 1);
      if Parent(env, p[0]).Some? {
        assert NthParent(env, Parent(env, p[0]).value, 0) == Parent(env, p[0]);
      }
    }
  }

  /** The block the tail of an attached segment names, by its position in the predecessor. */
  lemma NamedPosition(env: Env, g: Graph, paths: Paths, t: SegId) returns (j: nat)
    requires Shape(env, g, paths) && t in g.segs && g.segs[t].prev.Some?
    ensures g.segs[t].prev.value in g.segs && j < |paths[g.segs[t].prev.value]|
    ensures Parent(env, g.segs[t].tail) == Some(paths[g.segs[t].prev.value][j])
  {
    assert SegAt(env, g, t, paths);
    var b := Parent(env, g.segs[t].tail).value;
    assert RecordOk(g, b, paths);
    j :| 0 <= j < |paths[g.segs[t].prev.value]| && paths[g.segs[t].prev.value][j] == b;
  }

  /** The parents of a block lead down to the tail of every segment below its own. */
  lemma {:induction false} TailBelow(env: Env, g: Graph, paths: Paths, n: SegId, t: SegId, k: nat, j: nat)
    returns (m: nat)
    requires Shape(env, g, paths) && t in g.segs && Climbs(g, n, t, k) && j < |paths[t]|
    ensures n in g.segs && NthParent(env, paths[t][j], m) == Some(g.segs[n].tail)
    decreases k
  {
    assert SegAt(env, g, t, paths);
    BelowBlock(env, g, paths, t, j, j);
    m := j;
    if k > 0 {
      var q := g.segs[t].prev.value;
      var i := NamedPosition(env, g, paths, t);
      m := TailBelow(env, g, paths, n, q, k - 1, i);
      BelowBlock(env, g, paths, t, j, j + 1);
      NthParentAdd(env, paths[t][j], j + 1, m);
      m := j + 1 + m;
    }
  }

  /** They never lead to a block `h` of the predecessor that lies above the block named by the tail. */
  lemma {:induction false} NotBelow(env: Env, g: Graph, paths: Paths, n: SegId, t: SegId, k: nat, j: nat, i: nat,
      h: Ref, gap: nat)
    requires Shape(env, g, paths) && AcyclicParents(env) && n in g.segs && g.segs[n].prev.Some?
    requires Rec(g, h).segment == g.segs[n].prev
    requires gap > 0 && NthParent(env, h, gap) == Parent(env, g.segs[n].tail)
    requires t in g.segs && Climbs(g, n, t, k) && j < |paths[t]|
    ensures NthParent(env, paths[t][j], i) != Some(h)
    decreases k
  {
    assert SegAt(env, g, t, paths);
    if i <= j {
      BelowBlock(env, g, paths, t, j, i);
      NotOwnSuccessor(env, g, paths, n, t, k);
    } else {
      BelowBlock(env, g, paths, t, j, j + 1);
      NthParentAdd(env, paths[t][j], j + 1, i - j - 1);
      var m := NamedPosition(env, g, paths, if k == 0 then n else t);
      if k > 0 {
        NotBelow(env, g, paths, n, g.segs[t].prev.value, k - 1, m, i - j - 1, h, gap);
      } else if NthParent(env, paths[g.segs[t].prev.value][m], i - j - 1) == Some(h) {
        NthParentAdd(env, paths[g.segs[t].prev.value][m], i - j - 1, gap);
        assert false;
      }
    }
  }

  lemma NotOwnSuccessor(env: Env, g: Graph, paths: Paths, n: SegId, t: SegId, k: nat)
    requires Shape(env, g, paths) && n in g.segs && t in g.segs && g.segs[n].prev.Some? && Climbs(g, n, t, k)
    ensures g.segs[n].prev != Some(t)
  {
    var v := SpliceWalk(env, g, paths, n);
    assert SegAt(env, g, n, paths) && SegAt(env, g, g.segs[n].prev.value, paths);
    WalkFacts(env, g.segs[g.segs[n].prev.value].head, g.segs[n].head, v);
    var w := ClimbWalk(env, g, paths, n, t, k);
    WalkFacts(env, g.segs[n].head, g.segs[t].head, w);
  }

  /** The segment `n` is spliced after `s`, and segment links lead from it up to `t`. */
  ghost predicate Between(g: Graph, s: SegId, n: SegId, t: SegId) {
    n in g.segs && g.segs[n].prev == Some(s) && Leads(g, n, t)
  }

  /** Over any number of splices, the first one decides: a block of segment `s` is an ancestor of the
      head of `t` exactly when the tail spliced after `s` names a block at least as high. */
  lemma SpliceKeepsIff(env: Env, g: Graph, paths: Paths, s: SegId, n: SegId, t: SegId, i: nat)
    requires Shape(env, g, paths) && AcyclicParents(env) && t in g.segs && Between(g, s, n, t)
    requires s in g.segs && Checked(g.segs[s]) && i < |paths[s]|
    ensures Parent(env, g.segs[n].tail).Some?
    ensures IsAncestor(env, paths[s][i], g.segs[t].head)
            <==> Height(env, Parent(env, g.segs[n].tail).value) >= Height(env, paths[s][i])
  {
    var k: nat :| Climbs(g, n, t, k);
    assert SegAt(env, g, t, paths) && SegAt(env, g, s, paths);
    var j := NamedPosition(env, g, paths, n);
    ValidatedSegment(env, g, paths, s, i);
    ValidatedSegment(env, g, paths, s, j);
    var top := |paths[t]| - 1;
    if j >= i {
      var m := TailBelow(env, g, paths, n, t, k, top);
      BelowTail(env, g, paths, s, n, j, i);
      NthParentAdd(env, g.segs[t].head, m, 1 + (j - i));
      assert NthParent(env, g.segs[t].head, m + (1 + (j - i))) == Some(paths[s][i]);
    } else {
      BelowBlock(env, g, paths, s, i, i - j);
      forall m: nat ensures NthParent(env, g.segs[t].head, m) != Some(paths[s][i]) {
        NotBelow(env, g, paths, n, t, k, top, m, paths[s][i], i - j);
      }
    }
  }

  lemma BelowTail(env: Env, g: Graph, paths: Paths, s: SegId, n: SegId, j: nat, i: nat)
    requires Shape(env, g, paths) && n in g.segs && s in g.segs && i <= j < |paths[s]|
    requires Parent(env, g.segs[n].tail) == Some(paths[s][j])
    ensures NthParent(env, g.segs[n].tail, 1 + (j - i)) == Some(paths[s][i])
  {
    BelowBlock(env, g, paths, s, j, j - i);
  }

  lemma {:induction false} FirstHop(g: Graph, s: SegId, t: SegId, k: nat) returns (n: SegId)
    requires k > 0 && Climbs(g, s, t, k)
    ensures n in g.segs && g.segs[n].prev == Some(s) && Climbs(g, n, t, k - 1)
    decreases k
  {
    if k == 1 {
      n := t;
      assert Climbs(g, s, g.segs[t].prev.value, 0);
    } else {
      n := FirstHop(g, s, g.segs[t].prev.value, k - 1);
    }
  }

  /** Every splice just above segment `s`, on the way to `t`, is at a block at least as high as `h`. */
  ghost predicate SplicedAbove(env: Env, g: Graph, h: Ref, s: SegId, t: SegId) {
    forall n :: Between(g, s, n, t) ==>
      Parent(env, g.segs[n].tail).Some? && Height(env, Parent(env, g.segs[n].tail).value) >= Height(env, h)
  }

  lemma KeptIff(env: Env, g: Graph, h: Ref, s: SegId, t: SegId)
    requires Shaped(env, g) && AcyclicParents(env) && Rec(g, h).segment == Some(s)
    requires s in g.segs && Checked(g.segs[s]) && t in g.segs && Leads(g, s, t)
    ensures IsAncestor(env, h, g.segs[t].head) <==> SplicedAbove(env, g, h, s, t)
  {
    var paths :| Shape(env, g, paths);
    assert SegAt(env, g, s, paths) && RecordOk(g, h, paths);
    var i :| 0 <= i < |paths[s]| && paths[s][i] == h;
    forall n | Between(g, s, n, t)
      ensures Parent(env, g.segs[n].tail).Some?
      ensures IsAncestor(env, h, g.segs[t].head)
              <==> Height(env, Parent(env, g.segs[n].tail).value) >= Height(env, h)
    {
      SpliceKeepsIff(env, g, paths, s, n, t, i);
    }
    var k: nat :| Climbs(g, s, t, k);
    if k > 0 {
      var n := FirstHop(g, s, t, k);
      assert Between(g, s, n, t);
    } else {
      BelowBlock(env, g, paths, s, |paths[s]| - 1, |paths[s]| - 1 - i);
      forall n ensures !Between(g, s, n, t) {
        if Between(g, s, n, t) {
          var m: nat :| Climbs(g, n, t, m);
          NotOwnSuccessor(env, g, paths, n, t, m);
        }
      }
    }
  }

  /** In any run of a node a management pass keeps the head on its branch exactly when the first splice
      above the head's own segment is at a block at least as high as the head, however many splices
      stalled passes left to catch up with; without a splice it always does. */
  lemma {:induction false} BranchKeptIff(env: Env, init: Chain, es: seq<Event>, now: int, later: int)
    requires Initial(env, init) && Run(env, init, es).head.Some? && AcyclicParents(env)
    ensures var c := Run(env, init, es);
            var d := ManageStateOnce(env, c, now, later);
            && c.stateSegment.Some? && d.head.Some? && Rec(c.graph, c.head.value).segment.Some?
            && (IsAncestor(env, c.head.value, d.head.value) <==>
                SplicedAbove(env, c.graph, c.head.value, Rec(c.graph, c.head.value).segment.value,
                  Forward(c.graph, c.stateSegment.value)))
  {
    RunSettled(env, init, es);
    InitialRunInv(env, init, es);
    var c := Run(env, init, es);
    ManageHead(env, c, now, later);
    HeadOwner(env, c);
    var s := Rec(c.graph, c.head.value).segment.value;
    ForwardInSegs(env, c.graph, c.stateSegment.value);
    LeadsForward(env, c.graph, s, c.stateSegment.value);
    KeptIff(env, c.graph, c.head.value, s, Forward(c.graph, c.stateSegment.value));
  }
}
