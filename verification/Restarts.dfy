/**
 The head across restarts. A restarted node has no head until management restores it or a rewind
 makes it adopt a segment; only such an adoption can take the head off its branch.
 */
module Restarts {
  import opened Blocks
  import opened SegmentGraph
  import opened GraphInvariant
  import opened ChainModel
  import opened ChainInvariant
  import opened HeadTheorems

  // ---------------------------------------------------------------------------------------
  // Adoption

  /** The guards of adoption are exact: a rewind sets the head if and only if they hold. */
  lemma AdoptsExact(env: Env, c: Chain, e: Event)
    requires e.Rewind? && c.head.None?
    ensures Step(env, c, e).head.Some? <==> exists t :: Adopts(env, c, e, t)
  {
    if e.pick in c.graph.queue && e.pick in c.graph.segs {
      var t := RewindTarget(Pulled(env, c, e), e.pick);
      assert Step(env, c, e).head.Some? <==> Adopts(env, c, e, t);
    }
  }

  /** Both configurations are known and name the same validator set. */
  ghost predicate SameSet(env: Env, a: Ref, b: Ref) {
    a in env.configs && b in env.configs && env.configs[a].validatorSetRef == env.configs[b].validatorSetRef
  }

  /** What the code asks of a segment before it adopts it, in the terms of its headers: the tail is under the
      initial configuration or, above height 0, the head is under one with the same validators. */
  ghost predicate Trustworthy(env: Env, seg: Seg) {
    && Known(env, seg.tail) && Known(env, seg.head)
    && (|| HeaderOf(env, seg.tail).chainConfigRef == env.initConfigRef
        || (Height(env, seg.tail) > 0 && SameSet(env, env.initConfigRef, HeaderOf(env, seg.head).chainConfigRef)))
  }

  /** Adopting under the guards: the segment is VALID from then on and is the state segment, its head block
      is the head, and the clock starts at the height above. */
  ghost function Adopted(env: Env, c: Chain, g: Graph, t: SegId): Chain
    requires t in g.segs
  {
    Chain(g.(segs := g.segs[t := g.segs[t].(status := Valid)]), Some(t), Some(g.segs[t].head),
      Height(env, g.segs[t].head) + 1, 0, c.emitted)
  }

  lemma ReportExact(env: Env, c: Chain, t: SegId, resolved: bool)
    requires Shaped(env, c.graph) && t in c.graph.segs
    ensures HandleSegmentUpdated(env, c, t, resolved) ==
            if c.head.None? && resolved && c.graph.segs[t].status == Disjointed && Trustworthy(env, c.graph.segs[t])
            then Adopted(env, c, c.graph, t) else c
  {
    var paths :| Shape(env, c.graph, paths);
    assert SegAt(env, c.graph, t, paths);
    SetHeadOk(env, c, t);
  }

  /** The segment a rewind of `pick` reports: its predecessor if it has one. */
  ghost function Reported(g: Graph, pick: SegId): SegId {
    if pick !in g.segs then pick else match g.segs[pick].prev
    case None => pick
    case Some(q) => q
  }

  lemma ReportedStored(env: Env, c: Chain, e: Event)
    requires Inv(env, c) && e.Rewind? && e.pick in c.graph.segs
    ensures Shaped(env, Pulled(env, c, e)) && Reported(Pulled(env, c, e), e.pick) in Pulled(env, c, e).segs
  {
    PopRewindShape(env, c.graph, e.pick, e.fetched, e.verdict);
    var paths :| Shape(env, Pulled(env, c, e), paths);
    assert SegAt(env, Pulled(env, c, e), e.pick, paths);
  }

  /** Adoption, exactly: a node without head gets one from a rewind if and only if the rewind succeeds, the
      lookups resolve, and the segment it reports is disjointed and trustworthy. */
  lemma AdoptionExact(env: Env, c: Chain, e: Event)
    requires Inv(env, c) && e.Rewind? && e.pick in c.graph.queue && e.pick in c.graph.segs && c.head.None?
    ensures var g := Pulled(env, c, e);
            var t := Reported(g, e.pick);
            && t in g.segs
            && if && RewindSegment(env, PopQueue(c.graph, e.pick), e.pick, e.fetched, e.verdict).ok
                  && e.resolved && g.segs[t].status == Disjointed && Trustworthy(env, g.segs[t])
               then Step(env, c, e) == Adopted(env, c, g, t)
               else Step(env, c, e).head.None? && Step(env, c, e).stateSegment == c.stateSegment
  {
    ReportedStored(env, c, e);
    var g := Pulled(env, c, e);
    ReportExact(env, c.(graph := g), Reported(g, e.pick), e.resolved);
  }

  /** The adopted segment becomes the state segment and its head the chain head. */
  lemma AdoptionHead(env: Env, c: Chain, e: Event, t: SegId)
    requires Inv(env, c) && Adopts(env, c, e, t)
    ensures Shaped(env, Pulled(env, c, e))
    ensures Step(env, c, e).head == Some(Pulled(env, c, e).segs[t].head) && Step(env, c, e).stateSegment == Some(t)
  {
    PopRewindShape(env, c.graph, e.pick, e.fetched, e.verdict);
    SetHeadOk(env, c.(graph := Pulled(env, c, e)), t);
  }

  /** A node without head that does not adopt changes nothing but the graph. */
  lemma NoAdoption(env: Env, c: Chain, e: Event)
    requires e.Rewind? && (c.head.Some? || forall t :: !Adopts(env, c, e, t))
    ensures Step(env, c, e) == c.(graph := Step(env, c, e).graph)
  {
    if c.head.None? { AdoptsExact(env, c, e); }
  }

  lemma PulledEnds(env: Env, g: Graph, pick: SegId, fetched: bool, verdict: Verdict, s: SegId)
    requires pick in g.segs && s in g.segs
    ensures var h := RewindSegment(env, g, pick, fetched, verdict).graph;
            s in h.segs && h.segs[s].head == g.segs[s].head && (s != pick ==> h.segs[s].tail == g.segs[s].tail)
  {
  }

  lemma ReportedEnds(env: Env, c: Chain, pick: SegId, r: Rewound, resolved: bool, s: SegId)
    requires s in r.graph.segs
    ensures var h := ReportRewound(env, c, pick, r, resolved).graph;
            s in h.segs && h.segs[s].head == r.graph.segs[s].head && h.segs[s].tail == r.graph.segs[s].tail
  {
  }

  /** A rewind moves no head, and no tail but that of the segment it rewinds. */
  lemma RewindKeepsEnds(env: Env, c: Chain, e: Event, s: SegId)
    requires e.Rewind? && s in c.graph.segs
    ensures var h := Step(env, c, e).graph;
            && s in h.segs && h.segs[s].head == c.graph.segs[s].head
            && (s != e.pick ==> h.segs[s].tail == c.graph.segs[s].tail)
  {
    if e.pick in c.graph.queue && e.pick in c.graph.segs {
      PulledEnds(env, PopQueue(c.graph, e.pick), e.pick, e.fetched, e.verdict, s);
      ReportedEnds(env, c, e.pick, RewindSegment(env, PopQueue(c.graph, e.pick), e.pick, e.fetched, e.verdict),
        e.resolved, s);
    }
  }

  // ---------------------------------------------------------------------------------------
  // Positions are kept

  lemma CommitPosition(env: Env, c: Chain, e: Event, a: Ref, s: SegId)
    requires Inv(env, c) && e.Commit? && s in c.graph.segs && HeadAt(env, c.graph, a, s)
    ensures HeadAt(env, Step(env, c, e).graph, a, s)
  {
    if e.id !in c.graph.segs {
      CommitHead(env, c.(head := Some(a), stateSegment := Some(s)), e.ref, e.id, e.verdict);
    }
  }

  lemma PulledPosition(env: Env, c: Chain, e: Event, a: Ref, s: SegId)
    requires Inv(env, c) && e.Rewind? && e.pick in c.graph.segs && s in c.graph.segs && HeadAt(env, c.graph, a, s)
    ensures HeadAt(env, Pulled(env, c, e), a, s) && s in Pulled(env, c, e).segs
  {
    RewindSegmentHead(env, c.(head := Some(a), stateSegment := Some(s)), e.pick, e.fetched, e.verdict);
  }

  /** Reporting changes statuses and the queue only. */
  lemma ReportedPosition(env: Env, c: Chain, pick: SegId, r: Rewound, resolved: bool, a: Ref, s: SegId)
    requires Shaped(env, r.graph) && HeadAt(env, r.graph, a, s)
    ensures HeadAt(env, ReportRewound(env, c, pick, r, resolved).graph, a, s)
  {
    if r.ok {
      var t := RewindTarget(r.graph, pick);
      ReportShape(env, c.(graph := r.graph), t, resolved);
      LeadsKept(r.graph, ReportRewound(env, c, pick, r, resolved).graph, Rec(r.graph, a).segment.value, s);
    }
  }

  /** Above a block from which all links upwards are checked they stay so, whatever happens. */
  lemma PositionKept(env: Env, c: Chain, e: Event, a: Ref, s: SegId)
    requires Inv(env, c) && s in c.graph.segs && HeadAt(env, c.graph, a, s)
    ensures HeadAt(env, Step(env, c, e).graph, a, s)
  {
    match e
    case Commit(_, _, _) => CommitPosition(env, c, e, a, s);
    case Rewind(pick, fetched, verdict, resolved) =>
      if pick in c.graph.queue && pick in c.graph.segs {
        PulledPosition(env, c, e, a, s);
        PopRewindShape(env, c.graph, pick, fetched, verdict);
        ReportedPosition(env, c, pick, RewindSegment(env, PopQueue(c.graph, pick), pick, fetched, verdict), resolved,
          a, s);
      }
    case Manage(now, later) =>
      assert ManageStateOnce(env, c, now, later).graph == c.graph;
    case Stall =>
    case Restart(_, _) =>
      StepShape(env, c, e);
      LeadsKept(c.graph, Step(env, c, e).graph, Rec(c.graph, a).segment.value, s);
  }

  // ---------------------------------------------------------------------------------------
  // One step

  /** `a` is where the head is or, while a restarted node has none yet, where it was. */
  ghost predicate Anchored(env: Env, c: Chain, a: Ref) {
    && c.stateSegment.Some? && HeadAt(env, c.graph, a, c.stateSegment.value)
    && (c.head.Some? ==> c.head == Some(a))
  }

  /** Where the anchor is after a step. */
  ghost function NextAnchor(env: Env, c: Chain, e: Event, a: Ref): Ref {
    if Step(env, c, e).head.Some? then Step(env, c, e).head.value else a
  }

  lemma StepAnchored(env: Env, c: Chain, e: Event, a: Ref)
    requires Inv(env, c) && Anchored(env, c, a)
    ensures Anchored(env, Step(env, c, e), NextAnchor(env, c, e, a))
  {
    StepInv(env, c, e);
    if Step(env, c, e).head.None? {
      PositionKept(env, c, e, a, c.stateSegment.value);
      if e.Rewind? {
        AdoptsExact(env, c, e);
        NoAdoption(env, c, e);
      } else if e.Manage? {
        ManageHead(env, c, e.now, e.later);
      } else if e.Stall? {
        LeadsForward(env, c.graph, Rec(c.graph, a).segment.value, c.stateSegment.value);
      }
    }
  }

  /** A step that does not adopt moves the anchor along a walk. */
  lemma StepAnchorWalk(env: Env, c: Chain, e: Event, a: Ref) returns (w: seq<Ref>)
    requires Inv(env, c) && Anchored(env, c, a) && forall t :: !Adopts(env, c, e, t)
    ensures Walk(env, a, NextAnchor(env, c, e, a), w) && (WellHeighted(env) ==> Named(env, w))
  {
    w := [a];
    if e.Manage? {
      ManageHead(env, c, e.now, e.later);
      var t := Forward(c.graph, c.stateSegment.value);
      ForwardInSegs(env, c.graph, c.stateSegment.value);
      LeadsForward(env, c.graph, Rec(c.graph, a).segment.value, c.stateSegment.value);
      w := LeadWalk(env, c.graph, a, t);
    } else if e.Rewind? {
      NoAdoption(env, c, e);
    }
  }

  // ---------------------------------------------------------------------------------------
  // Exactly when an adoption keeps the branch

  /** The lowest segment reached from `t` down the segment links. */
  ghost predicate Bottom(g: Graph, n: SegId, t: SegId) {
    n in g.segs && g.segs[n].prev.None? && Leads(g, n, t)
  }

  /** The segment `t` is above the block `a`: by segment links, or because the parents of the lowest
      segment, not yet pulled in, lead down to `a`. */
  ghost predicate Joins(env: Env, g: Graph, a: Ref, t: SegId) {
    || (Rec(g, a).segment.Some? && Leads(g, Rec(g, a).segment.value, t))
    || exists n :: Bottom(g, n, t) && Parent(env, g.segs[n].tail).Some?
                   && IsAncestor(env, a, Parent(env, g.segs[n].tail).value)
  }

  lemma AncestorsCompose(env: Env, a: Ref, b: Ref, c: Ref)
    requires IsAncestor(env, a, b) && IsAncestor(env, b, c)
    ensures IsAncestor(env, a, c)
  {
    var m: nat :| NthParent(env, b, m) == Some(a);
    var n: nat :| NthParent(env, c, n) == Some(b);
    NthParentAdd(env, c, n, m);
    assert NthParent(env, c, n + m) == Some(a);
  }

  lemma WalkIsAncestor(env: Env, a: Ref, b: Ref, w: seq<Ref>)
    requires Walk(env, a, b, w) && Named(env, w)
    ensures IsAncestor(env, a, b)
  {
    NamedWalkAncestor(env, w);
  }

  /** Segment links lead to descendants. */
  lemma LeadsToDescendant(env: Env, g: Graph, a: Ref, t: SegId)
    requires Shaped(env, g) && WellHeighted(env) && t in g.segs
    requires Rec(g, a).segment.Some? && Leads(g, Rec(g, a).segment.value, t)
    ensures IsAncestor(env, a, g.segs[t].head)
  {
    var paths :| Shape(env, g, paths);
    var s := Rec(g, a).segment.value;
    assert RecordOk(g, a, paths);
    assert SegAt(env, g, s, paths);
    var i :| 0 <= i < |paths[s]| && paths[s][i] == a;
    BelowBlock(env, g, paths, s, |paths[s]| - 1, |paths[s]| - 1 - i);
    assert IsAncestor(env, a, g.segs[s].head);
    var k: nat :| Climbs(g, s, t, k);
    var w := ClimbWalk(env, g, paths, s, t, k);
    WalkIsAncestor(env, g.segs[s].head, g.segs[t].head, w);
    AncestorsCompose(env, a, g.segs[s].head, g.segs[t].head);
  }

  lemma BottomToDescendant(env: Env, g: Graph, a: Ref, n: SegId, t: SegId)
    requires Shaped(env, g) && t in g.segs && Bottom(g, n, t) && Parent(env, g.segs[n].tail).Some?
    requires IsAncestor(env, a, Parent(env, g.segs[n].tail).value)
    ensures IsAncestor(env, a, g.segs[t].head)
  {
    var paths :| Shape(env, g, paths);
    assert SegAt(env, g, t, paths);
    var k: nat :| Climbs(g, n, t, k);
    var m := TailBelow(env, g, paths, n, t, k, |paths[t]| - 1);
    var b := Parent(env, g.segs[n].tail).value;
    assert NthParent(env, b, 0) == Some(b);
    assert NthParent(env, g.segs[n].tail, 1) == Some(b);
    AncestorsCompose(env, b, g.segs[n].tail, g.segs[t].head);
    AncestorsCompose(env, a, b, g.segs[t].head);
  }

  /** Going down from the head of `u`, a segment below `t`, to `a`. */
  lemma {:induction false} DescendantJoins(env: Env, g: Graph, a: Ref, u: SegId, t: SegId, k: nat, i: nat)
    requires Shaped(env, g) && WellHeighted(env) && u in g.segs && Climbs(g, u, t, k)
    requires NthParent(env, g.segs[u].head, i) == Some(a)
    ensures Joins(env, g, a, t)
    decreases i
  {
    var paths :| Shape(env, g, paths);
    assert SegAt(env, g, u, paths);
    var top := |paths[u]| - 1;
    if i <= top {
      BelowBlock(env, g, paths, u, top, i);
      assert Rec(g, paths[u][top - i]).segment == Some(u);
    } else {
      BelowBlock(env, g, paths, u, top, top + 1);
      assert NthParent(env, g.segs[u].head, top + 1).Some? by { PrefixOfParents(env, g.segs[u].head, top + 1, i); }
      NthParentAdd(env, g.segs[u].head, top + 1, i - top - 1);
      if g.segs[u].prev.Some? {
        var q := g.segs[u].prev.value;
        SpliceNamesHead(env, g, paths, u);
        ClimbsDown(g, u, t, k);
        DescendantJoins(env, g, a, q, t, k + 1, i - top - 1);
      } else {
        assert Bottom(g, u, t);
      }
    }
  }

  lemma {:induction false} PrefixOfParents(env: Env, r: Ref, m: nat, n: nat)
    requires m <= n && NthParent(env, r, n).Some?
    ensures NthParent(env, r, m).Some?
    decreases m
  {
    if m > 0 { PrefixOfParents(env, Parent(env, r).value, m - 1, n - 1); }
  }

  lemma {:induction false} ClimbsDown(g: Graph, u: SegId, t: SegId, k: nat)
    requires u in g.segs && g.segs[u].prev.Some? && Climbs(g, u, t, k)
    ensures Climbs(g, g.segs[u].prev.value, t, k + 1)
    decreases k
  {
    if k > 0 {
      ClimbsDown(g, u, g.segs[t].prev.value, k - 1);
    } else {
      assert Climbs(g, g.segs[u].prev.value, g.segs[u].prev.value, 0);
    }
  }

  /** With honest heights, the head of an adopted segment descends from `a` exactly when the segment
      joins it. */
  lemma AdoptionIff(env: Env, g: Graph, a: Ref, t: SegId)
    requires Shaped(env, g) && WellHeighted(env) && t in g.segs
    ensures IsAncestor(env, a, g.segs[t].head) <==> Joins(env, g, a, t)
  {
    if IsAncestor(env, a, g.segs[t].head) {
      var i: nat :| NthParent(env, g.segs[t].head, i) == Some(a);
      assert Climbs(g, t, t, 0);
      DescendantJoins(env, g, a, t, t, 0, i);
    } else if Joins(env, g, a, t) {
      if Rec(g, a).segment.Some? && Leads(g, Rec(g, a).segment.value, t) {
        LeadsToDescendant(env, g, a, t);
      } else {
        var n :| Bottom(g, n, t) && Parent(env, g.segs[n].tail).Some?
                   && IsAncestor(env, a, Parent(env, g.segs[n].tail).value);
        BottomToDescendant(env, g, a, n, t);
      }
    }
  }

  // ---------------------------------------------------------------------------------------
  // Runs

  /** The head at the end of a run or, while a restarted node has none yet, its last one. */
  ghost function LastHead(env: Env, c: Chain, es: seq<Event>): Ref
    requires c.head.Some?
    decreases |es|
  {
    if es == [] then c.head.value
    else NextAnchor(env, Run(env, c, es[..|es| - 1]), es[|es| - 1], LastHead(env, c, es[..|es| - 1]))
  }

  lemma {:induction false} RunAnchored(env: Env, c: Chain, es: seq<Event>)
    requires Inv(env, c) && c.head.Some?
    ensures Anchored(env, Run(env, c, es), LastHead(env, c, es))
    decreases |es|
  {
    if es != [] {
      RunAnchored(env, c, es[..|es| - 1]);
      RunInv(env, c, es[..|es| - 1]);
      StepAnchored(env, Run(env, c, es[..|es| - 1]), es[|es| - 1], LastHead(env, c, es[..|es| - 1]));
    }
  }

  /** Every adopted segment joins the last head before it. */
  ghost predicate AdoptionsJoin(env: Env, c: Chain, es: seq<Event>)
    requires c.head.Some?
    decreases |es|
  {
    es == [] ||
    (var fs, e := es[..|es| - 1], es[|es| - 1];
     && AdoptionsJoin(env, c, fs)
     && forall t :: Adopts(env, Run(env, c, fs), e, t) ==>
          Joins(env, Pulled(env, Run(env, c, fs), e), LastHead(env, c, fs), t))
  }

  /** Every head of the run descends from the head before it. */
  ghost predicate StaysOnBranch(env: Env, c: Chain, es: seq<Event>)
    requires c.head.Some?
    decreases |es|
  {
    es == [] ||
    (var fs := es[..|es| - 1];
     StaysOnBranch(env, c, fs) && IsAncestor(env, LastHead(env, c, fs), LastHead(env, c, es)))
  }

  lemma StepStaysIff(env: Env, c: Chain, e: Event, a: Ref)
    requires Inv(env, c) && Anchored(env, c, a) && WellHeighted(env)
    ensures IsAncestor(env, a, NextAnchor(env, c, e, a))
            <==> forall t :: Adopts(env, c, e, t) ==> Joins(env, Pulled(env, c, e), a, t)
  {
    if t :| Adopts(env, c, e, t) {
      AdoptionHead(env, c, e, t);
      AdoptionIff(env, Pulled(env, c, e), a, t);
    } else {
      var w := StepAnchorWalk(env, c, e, a);
      WalkIsAncestor(env, a, NextAnchor(env, c, e, a), w);
    }
  }

  /** No rollback, exactly: with honest heights and through any number of restarts, every head descends
      from the one before it if and only if every adopted segment joins the last head. */
  lemma {:induction false} NoRollbackIff(env: Env, c: Chain, es: seq<Event>)
    requires Inv(env, c) && c.head.Some? && WellHeighted(env)
    ensures StaysOnBranch(env, c, es) <==> AdoptionsJoin(env, c, es)
    decreases |es|
  {
    if es != [] {
      var fs := es[..|es| - 1];
      NoRollbackIff(env, c, fs);
      RunAnchored(env, c, fs);
      RunInv(env, c, fs);
      StepStaysIff(env, Run(env, c, fs), es[|es| - 1], LastHead(env, c, fs));
    }
  }

  lemma {:induction false} BranchAncestor(env: Env, c: Chain, es: seq<Event>)
    requires c.head.Some? && StaysOnBranch(env, c, es)
    ensures IsAncestor(env, c.head.value, LastHead(env, c, es))
    decreases |es|
  {
    if es == [] {
      assert NthParent(env, c.head.value, 0) == Some(c.head.value);
    } else {
      BranchAncestor(env, c, es[..|es| - 1]);
      AncestorsCompose(env, c.head.value, LastHead(env, c, es[..|es| - 1]), LastHead(env, c, es));
    }
  }

  lemma {:induction false} ParentHeights(env: Env, r: Ref, n: nat)
    requires WellHeighted(env) && NthParent(env, r, n).Some? && Known(env, NthParent(env, r, n).value)
    ensures Height(env, r) == Height(env, NthParent(env, r, n).value) + n
    decreases n
  {
    if n > 0 {
      ParentHeights(env, Parent(env, r).value, n - 1);
      assert n == 1 ==> NthParent(env, r, n) == Parent(env, r);
      assert n > 1 ==> Parent(env, Parent(env, r).value).Some?;
    }
  }

  lemma AncestorDescends(env: Env, a: Ref, b: Ref)
    requires WellHeighted(env) && Known(env, a) && IsAncestor(env, a, b)
    ensures Descends(env, a, b)
  {
    var n: nat :| NthParent(env, b, n) == Some(a);
    ParentHeights(env, b, n);
  }

  /** No rollback across restarts: then the last head descends from the first at the distance of
      their heights. */
  lemma {:induction false} NoRollbackAcrossRestarts(env: Env, c: Chain, es: seq<Event>)
    requires Inv(env, c) && c.head.Some? && WellHeighted(env) && AdoptionsJoin(env, c, es)
    ensures Descends(env, c.head.value, LastHead(env, c, es))
    ensures Run(env, c, es).head.Some? ==> Run(env, c, es).head == Some(LastHead(env, c, es))
  {
    NoRollbackIff(env, c, es);
    BranchAncestor(env, c, es);
    AncestorDescends(env, c.head.value, LastHead(env, c, es));
  }

  // ---------------------------------------------------------------------------------------
  // Validated links across restarts

  /** The walk from a block `a` to the head of an adopted segment above it. */
  lemma AdoptionWalk(env: Env, c: Chain, e: Event, t: SegId, a: Ref, s: SegId) returns (w: seq<Ref>)
    requires Inv(env, c) && Adopts(env, c, e, t) && s in c.graph.segs && HeadAt(env, c.graph, a, s)
    requires Leads(Pulled(env, c, e), Rec(Pulled(env, c, e), a).segment.value, t)
    ensures Step(env, c, e).head.Some? && Walk(env, a, Step(env, c, e).head.value, w)
    ensures WellHeighted(env) ==> Named(env, w)
  {
    AdoptionHead(env, c, e, t);
    PulledPosition(env, c, e, a, s);
    w := LeadWalk(env, Pulled(env, c, e), a, t);
  }

  /** Segment links lead from the last head up to every adopted segment. */
  ghost predicate AdoptionsAttached(env: Env, c: Chain, es: seq<Event>)
    requires c.head.Some?
    decreases |es|
  {
    es == [] ||
    (var fs, e := es[..|es| - 1], es[|es| - 1];
     && AdoptionsAttached(env, c, fs)
     && forall t :: Adopts(env, Run(env, c, fs), e, t) ==>
          var g := Pulled(env, Run(env, c, fs), e);
          Rec(g, LastHead(env, c, fs)).segment.Some? && Leads(g, Rec(g, LastHead(env, c, fs)).segment.value, t))
  }

  /** Then, whatever heights headers state, a walk of validated links leads from any head to any later
      one through all restarts. */
  lemma {:induction false} RunWalkAcross(env: Env, c: Chain, es: seq<Event>) returns (w: seq<Ref>)
    requires Inv(env, c) && c.head.Some? && AdoptionsAttached(env, c, es)
    ensures Walk(env, c.head.value, LastHead(env, c, es), w) && (WellHeighted(env) ==> Named(env, w))
    decreases |es|
  {
    if es == [] {
      w := [c.head.value];
    } else {
      var fs, e := es[..|es| - 1], es[|es| - 1];
      w := RunWalkAcross(env, c, fs);
      RunAnchored(env, c, fs);
      RunInv(env, c, fs);
      var d, a := Run(env, c, fs), LastHead(env, c, fs);
      var v;
      if t :| Adopts(env, d, e, t) {
        v := AdoptionWalk(env, d, e, t, a, d.stateSegment.value);
      } else {
        v := StepAnchorWalk(env, d, e, a);
      }
      WalkJoin(env, c.head.value, a, LastHead(env, c, es), w, v);
      w := w + v[1..];
    }
  }

  // ---------------------------------------------------------------------------------------
  // Genesis

  /** Segment links lead from segment `id` up to every adopted segment. */
  ghost predicate AdoptionsAbove(env: Env, c: Chain, es: seq<Event>, id: SegId)
    decreases |es|
  {
    es == [] ||
    (var fs, e := es[..|es| - 1], es[|es| - 1];
     && AdoptionsAbove(env, c, fs, id)
     && forall t :: Adopts(env, Run(env, c, fs), e, t) ==> Leads(Pulled(env, Run(env, c, fs), e), id, t))
  }

  lemma {:induction false} RunPosition(env: Env, c: Chain, es: seq<Event>, a: Ref, s: SegId)
    requires Inv(env, c) && s in c.graph.segs && HeadAt(env, c.graph, a, s)
    ensures HeadAt(env, Run(env, c, es).graph, a, s) && s in Run(env, c, es).graph.segs
    ensures Rec(Run(env, c, es).graph, a).segment == Rec(c.graph, a).segment
    decreases |es|
  {
    RunInv(env, c, es);
    assert SegEvolves(c.graph, Run(env, c, es).graph, s);
    assert RecordEvolves(Rec(c.graph, a), Rec(Run(env, c, es).graph, a));
    if es != [] {
      RunPosition(env, c, es[..|es| - 1], a, s);
      RunInv(env, c, es[..|es| - 1]);
      PositionKept(env, Run(env, c, es[..|es| - 1]), es[|es| - 1], a, s);
    }
  }

  lemma PulledOwner(env: Env, c: Chain, e: Event, a: Ref)
    requires Inv(env, c) && e.Rewind? && e.pick in c.graph.segs && Rec(c.graph, a).segment.Some?
    ensures Rec(Pulled(env, c, e), a).segment == Rec(c.graph, a).segment
  {
    PopRewindShape(env, c.graph, e.pick, e.fetched, e.verdict);
    assert RecordEvolves(Rec(c.graph, a), Rec(Pulled(env, c, e), a));
  }

  lemma {:induction false} GenesisWalk(env: Env, genesis: Ref, id: SegId, es: seq<Event>) returns (w: seq<Ref>)
    requires Minted(env, genesis) && AdoptionsAbove(env, NewChain(env, genesis, id), es, id)
    ensures Walk(env, genesis, LastHead(env, NewChain(env, genesis, id), es), w)
    ensures WellHeighted(env) ==> Named(env, w)
    decreases |es|
  {
    var c := NewChain(env, genesis, id);
    NewChainInv(env, genesis, id);
    if es == [] {
      w := [genesis];
    } else {
      var fs, e := es[..|es| - 1], es[|es| - 1];
      var d, a := Run(env, c, fs), LastHead(env, c, fs);
      RunAnchored(env, c, fs);
      RunInv(env, c, fs);
      if t :| Adopts(env, d, e, t) {
        RunPosition(env, c, fs, genesis, id);
        PulledOwner(env, d, e, genesis);
        w := AdoptionWalk(env, d, e, t, genesis, id);
      } else {
        w := GenesisWalk(env, genesis, id, fs);
        var v := StepAnchorWalk(env, d, e, a);
        WalkJoin(env, genesis, a, LastHead(env, c, es), w, v);
        w := w + v[1..];
      }
    }
  }

  /** A block minted as genesis or validated on top of it. */
  ghost predicate OnChain(env: Env, r: Ref) {
    && Known(env, r)
    && var h := HeaderOf(env, r);
    h.genesisRef == env.genesisRef && h.chainConfigRef == env.initConfigRef
      && h.nextChainConfigRef == env.initConfigRef
  }

  lemma WalkOnChain(env: Env, genesis: Ref, r: Ref, w: seq<Ref>)
    requires Minted(env, genesis) && Walk(env, genesis, r, w)
    ensures OnChain(env, r) && Height(env, r) == |w| - 1
  {
    WalkFacts(env, genesis, r, w);
  }

  /** On a chain minted by NewChain, through any number of restarts, the head descends from the
      genesis block by validated links and keeps the genesis reference and both configuration
      references, as long as every adopted segment is spliced above the genesis segment. */
  lemma {:induction false} HeadFromGenesis(env: Env, genesis: Ref, id: SegId, es: seq<Event>)
    requires Minted(env, genesis) && AdoptionsAbove(env, NewChain(env, genesis, id), es, id)
    ensures var h := LastHead(env, NewChain(env, genesis, id), es);
            && OnChain(env, h) && (WellHeighted(env) ==> Descends(env, genesis, h))
            && exists w :: Walk(env, genesis, h, w) && Height(env, h) == |w| - 1
  {
    var h := LastHead(env, NewChain(env, genesis, id), es);
    var w := GenesisWalk(env, genesis, id, es);
    WalkOnChain(env, genesis, h, w);
    if WellHeighted(env) { WalkAncestry(env, genesis, h, w); }
  }
}
