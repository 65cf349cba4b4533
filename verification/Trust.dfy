/**
 What the chain takes on trust: where the status VALID comes from, and under which validators its
 head was proposed. Both hold in every run of a node, restarts included.
 */
module Trust {
  import opened Blocks
  import opened SegmentGraph
  import opened GraphInvariant
  import opened ChainModel
  import opened ChainInvariant
  import opened HeadTheorems
  import opened Restarts

  // ---------------------------------------------------------------------------------------
  // Where VALID comes from

  ghost predicate Unmarked(e: Event) {
    (e.Commit? || e.Rewind?) ==> e.verdict != Accepted(true)
  }

  /** In no step does the application's validator mark a block, and none adopts a segment. */
  ghost predicate Unprompted(env: Env, c: Chain, es: seq<Event>)
    decreases |es|
  {
    es == [] ||
    (var fs, e := es[..|es| - 1], es[|es| - 1];
     Unprompted(env, c, fs) && Unmarked(e) && forall t :: !Adopts(env, Run(env, c, fs), e, t))
  }

  ghost predicate NoneValid(g: Graph) {
    forall id :: id in g.segs ==> g.segs[id].status != Valid
  }

  lemma RewindNoneValid(env: Env, c: Chain, e: Event)
    requires NoneValid(c.graph) && e.Rewind? && Unmarked(e) && forall t :: !Adopts(env, c, e, t)
    ensures NoneValid(Step(env, c, e).graph)
  {
    if e.pick in c.graph.queue && e.pick in c.graph.segs {
      assert NoneValid(Pulled(env, c, e));
      assert !Adopts(env, c, e, RewindTarget(Pulled(env, c, e), e.pick));
    }
  }

  lemma StepNoneValid(env: Env, c: Chain, e: Event)
    requires NoneValid(c.graph) && Unmarked(e) && forall t :: !Adopts(env, c, e, t)
    ensures NoneValid(Step(env, c, e).graph)
  {
    match e
    case Commit(ref, id, verdict) =>
    case Rewind(_, _, _, _) =>
      RewindNoneValid(env, c, e);
    case Manage(now, later) =>
      assert ManageStateOnce(env, c, now, later).graph == c.graph;
    case Stall =>
    case Restart(_, _) =>
  }

  /** A segment becomes VALID in two ways only: the application's validator marks a block, or a node
      without head adopts the segment. While neither happens none ever is, in any run of a node, the
      genesis segment included. */
  lemma {:induction false} ValidOnlyByValidatorOrAdoption(env: Env, init: Chain, es: seq<Event>)
    requires Initial(env, init) && Unprompted(env, init, es)
    ensures NoneValid(Run(env, init, es).graph)
    decreases |es|
  {
    if es != [] {
      ValidOnlyByValidatorOrAdoption(env, init, es[..|es| - 1]);
      StepNoneValid(env, Run(env, init, es[..|es| - 1]), es[|es| - 1]);
    }
  }

  // ---------------------------------------------------------------------------------------
  // Whom the chain trusts

  /** The block is under the genesis configuration, or under one with the same validator set. */
  ghost predicate SameValidators(env: Env, r: Ref) {
    && Known(env, r)
    && var ref := HeaderOf(env, r).chainConfigRef;
    || ref == env.initConfigRef
    || (&& ref in env.configs && env.initConfigRef in env.configs
        && env.configs[ref].validatorSetRef == env.configs[env.initConfigRef].validatorSetRef)
  }

  /** Adopting looks at tail and head only, but links force the whole segment to agree. */
  lemma AdoptableSegment(env: Env, g: Graph, t: SegId, r: Ref)
    requires Shaped(env, g) && t in g.segs && g.segs[t].status == Disjointed && Adoptable(env, g.segs[t])
    requires Rec(g, r).segment == Some(t)
    ensures SameValidators(env, r)
  {
    var paths :| Shape(env, g, paths);
    assert SegAt(env, g, t, paths) && RecordOk(g, r, paths);
    var p := paths[t];
    var i :| 0 <= i < |p| && p[i] == r;
    ValidatedSegment(env, g, paths, t, i);
    ValidatedSegment(env, g, paths, t, 0);
  }

  /** A node without head adopts one during a rewind only from a segment all of whose blocks are
      under the genesis validators; the segment is VALID from then on and is the state segment. */
  lemma AdoptionKeepsValidators(env: Env, c: Chain, e: Event, t: SegId, r: Ref)
    requires Inv(env, c) && Adopts(env, c, e, t)
    ensures var d := Step(env, c, e);
            && d.stateSegment == Some(t) && t in d.graph.segs && d.graph.segs[t].status == Valid
            && d.head == Some(d.graph.segs[t].head)
            && (Rec(d.graph, r).segment == d.stateSegment ==> SameValidators(env, r))
  {
    AdoptionHead(env, c, e, t);
    if Rec(Pulled(env, c, e), r).segment == Some(t) { AdoptableSegment(env, Pulled(env, c, e), t, r); }
  }

  /** The state segment and the head are under the genesis validators. */
  ghost predicate Trusted(env: Env, c: Chain) {
    && (c.stateSegment.Some? && c.stateSegment.value in c.graph.segs ==>
          SameValidators(env, c.graph.segs[c.stateSegment.value].head))
    && (c.head.Some? ==> SameValidators(env, c.head.value))
  }

  lemma WalkValidators(env: Env, a: Ref, b: Ref, w: seq<Ref>)
    requires SameValidators(env, a) && Walk(env, a, b, w)
    ensures SameValidators(env, b)
  {
    WalkFacts(env, a, b, w);
  }

  lemma ForwardTrusted(env: Env, c: Chain)
    requires Inv(env, c) && Trusted(env, c) && c.stateSegment.Some?
    ensures var t := Forward(c.graph, c.stateSegment.value);
            t in c.graph.segs && SameValidators(env, c.graph.segs[t].head)
  {
    var s := c.stateSegment.value;
    ForwardInSegs(env, c.graph, s);
    if c.graph.segs[s].next.Some? {
      var paths :| Shape(env, c.graph, paths);
      assert SegAt(env, c.graph, s, paths);
      var w := SpliceWalk(env, c.graph, paths, c.graph.segs[s].next.value);
      WalkValidators(env, c.graph.segs[s].head, c.graph.segs[Forward(c.graph, s)].head, w);
    }
  }

  lemma CommitTrusted(env: Env, g: Graph, ref: Ref, id: SegId, verdict: Verdict, s: SegId)
    requires Shaped(env, g) && s in g.segs && id !in g.segs && SameValidators(env, g.segs[s].head)
    ensures var h := CommitBlock(env, g, ref, id, verdict); s in h.segs && SameValidators(env, h.segs[s].head)
  {
    var h := CommitBlock(env, g, ref, id, verdict);
    if h.segs[s].head != g.segs[s].head {
      var parent := Parent(env, ref).value;
      var paths :| Shape(env, g, paths);
      OpenBlockIsHead(env, g, paths, parent);
      assert Linked(env, g.segs[s].head, h.segs[s].head);
    }
  }

  lemma RewindTrusted(env: Env, c: Chain, e: Event)
    requires Inv(env, c) && Trusted(env, c) && e.Rewind?
    ensures Trusted(env, Step(env, c, e))
  {
    if t :| Adopts(env, c, e, t) {
      var d := Step(env, c, e);
      StepInv(env, c, e);
      AdoptionKeepsValidators(env, c, e, t, d.head.value);
      SetHeadOk(env, d, t);
    } else {
      NoAdoption(env, c, e);
      if c.stateSegment.Some? { RewindKeepsEnds(env, c, e, c.stateSegment.value); }
    }
  }

  lemma StepTrusted(env: Env, c: Chain, e: Event)
    requires Inv(env, c) && Trusted(env, c)
    ensures Trusted(env, Step(env, c, e))
  {
    match e
    case Commit(ref, id, verdict) =>
      if id !in c.graph.segs && c.stateSegment.Some? {
        CommitTrusted(env, c.graph, ref, id, verdict, c.stateSegment.value);
      }
    case Rewind(_, _, _, _) =>
      RewindTrusted(env, c, e);
    case Manage(now, later) =>
      if c.stateSegment.Some? {
        ForwardTrusted(env, c);
        ManageHead(env, c, now, later);
        SetHeadOk(env, c, Forward(c.graph, c.stateSegment.value));
      }
    case Stall =>
      if c.stateSegment.Some? { ForwardTrusted(env, c); }
    case Restart(_, _) =>
  }

  lemma {:induction false} RunTrusted(env: Env, init: Chain, es: seq<Event>)
    requires Initial(env, init)
    ensures Trusted(env, Run(env, init, es))
    decreases |es|
  {
    if es != [] {
      RunTrusted(env, init, es[..|es| - 1]);
      InitialRunInv(env, init, es[..|es| - 1]);
      StepTrusted(env, Run(env, init, es[..|es| - 1]), es[|es| - 1]);
    }
  }

  /** The block was proposed by the validator that the genesis validators select for its height and
      round on the block below. */
  ghost predicate ProposedBySelected(env: Env, below: Ref, r: Ref) {
    && env.initConfigRef in env.configs && env.configs[env.initConfigRef].validatorSetRef in env.validatorSets
    && Known(env, r)
    && var h := HeaderOf(env, r);
    ExpectedProposer(env, env.validatorSets[env.configs[env.initConfigRef].validatorSetRef], below, h.height, h.round)
      == Some(h.proposerId)
  }

  lemma LinkedProposer(env: Env, below: Ref, r: Ref)
    requires SameValidators(env, r) && Linked(env, below, r)
    ensures ProposedBySelected(env, below, r)
  {
  }

  /** The lowest block the node has validated on its branch. */
  ghost predicate Lowest(g: Graph, r: Ref) {
    && Rec(g, r).segment.Some? && Rec(g, r).segment.value in g.segs
    && var seg := g.segs[Rec(g, r).segment.value];
    seg.tail == r && seg.prev.None?
  }

  /** Any other block of a segment whose links are checked has a validated link below. */
  lemma LinkBelow(env: Env, g: Graph, r: Ref)
    requires Shaped(env, g) && Rec(g, r).segment.Some? && Rec(g, r).segment.value in g.segs
    requires Checked(g.segs[Rec(g, r).segment.value]) && !Lowest(g, r)
    ensures exists below :: Linked(env, below, r)
  {
    var paths :| Shape(env, g, paths);
    var s := Rec(g, r).segment.value;
    assert RecordOk(g, r, paths);
    assert SegAt(env, g, s, paths);
    var i :| 0 <= i < |paths[s]| && paths[s][i] == r;
    if i > 0 {
      assert Linked(env, paths[s][i - 1], paths[s][i]);
    } else {
      assert Linked(env, g.segs[g.segs[s].prev.value].head, r);
    }
  }

  /** In every run of a node, restarts and adoptions included, the head is under the genesis
      validators, and was proposed by the one they select on the block it was validated on, unless it
      is the lowest block the node has validated. */
  lemma {:induction false} HeadProposedBySelected(env: Env, init: Chain, es: seq<Event>)
    requires Initial(env, init) && Run(env, init, es).head.Some?
    ensures var h := Run(env, init, es).head.value;
            && SameValidators(env, h) && (forall below :: Linked(env, below, h) ==> ProposedBySelected(env, below, h))
            && (Lowest(Run(env, init, es).graph, h) || exists below :: Linked(env, below, h))
  {
    var d := Run(env, init, es);
    var h := d.head.value;
    RunTrusted(env, init, es);
    RunSettled(env, init, es);
    InitialRunInv(env, init, es);
    HeadOwner(env, d);
    forall below | Linked(env, below, h) ensures ProposedBySelected(env, below, h) {
      LinkedProposer(env, below, h);
    }
    if !Lowest(d.graph, h) { LinkBelow(env, d.graph, h); }
  }
}
