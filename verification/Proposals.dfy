/**
 Agreement between proposing and validating: the header makeProposal builds from a snapshot
 (chain/proposer.go) passes the structural checks of ValidateChild on its parent.
 */
module Proposals {
  import opened Blocks
  import opened SegmentGraph
  import opened ChainModel
  import opened ChainInvariant
  import opened HeadTheorems
  import opened ClockTheorems
  import opened Restarts

  /** makeProposal, for a node with peer identifier `self`, at time `now`, once the block proposer
      returned `stateRef`. */
  function MakeProposal(env: Env, snap: Snapshot, self: PeerId, now: int, stateRef: Ref): Header
    requires Known(env, snap.lastBlockRef)
  {
    var config := HeaderOf(env, snap.lastBlockRef).chainConfigRef;
    Header(env.genesisRef, config, config, Some(snap.lastBlockRef), snap.height, snap.round, now, self, stateRef)
  }

  /** SelectProposer does not depend on the order of the validators: the clock sorts the set
      before asking, validation does not. */
  ghost predicate SelectionIgnoresOrder(env: Env) {
    forall vs, r, h, n :: env.select(env.sort(vs), r, h, n) == env.select(vs, r, h, n)
  }

  /** The clock had passed the block's timestamp at one of the readings. */
  ghost predicate Elapsed(env: Env, r: Ref, es: seq<Event>) {
    Known(env, r) && exists i :: 0 <= i < |es| && es[i].Manage? && HeaderOf(env, r).timestamp <= es[i].now
  }

  lemma {:induction false} EmittedElapsed(env: Env, c: Chain, es: seq<Event>, snap: Snapshot)
    requires c.emitted == [] && snap in Run(env, c, es).emitted
    ensures Elapsed(env, snap.lastBlockRef, es)
    decreases |es|
  {
    var fs, e := es[..|es| - 1], es[|es| - 1];
    if snap in Run(env, c, fs).emitted {
      EmittedElapsed(env, c, fs, snap);
      var i :| 0 <= i < |fs| && fs[i].Manage? && HeaderOf(env, snap.lastBlockRef).timestamp <= fs[i].now;
      assert es[i] == fs[i];
    } else {
      NewlyEmitted(env, Run(env, c, fs), e, snap);
      assert es[|es| - 1].Manage?;
    }
  }

  lemma {:induction false} EmittedOk(env: Env, init: Chain, es: seq<Event>, snap: Snapshot)
    requires Initial(env, init) && snap in Run(env, init, es).emitted
    ensures SnapshotOk(env, snap) && Elapsed(env, snap.lastBlockRef, es)
  {
    InitialEmissions(env, init);
    RunEmissions(env, init, es);
    EmittedElapsed(env, init, es, snap);
    var s := Run(env, init, es).emitted;
    var i :| 0 <= i < |s| && s[i] == snap;
    assert Past(env, Run(env, init, es), s[i]);
  }

  /** A node proposes for a snapshot that names its key, at a time no earlier than any reading. */
  ghost predicate ProposesFor(env: Env, es: seq<Event>, snap: Snapshot, key: Key, self: PeerId, now: int) {
    && snap.proposer.Some? && snap.proposer.value.pubKey == key && env.parseKey(key) == Some(self)
    && forall i :: 0 <= i < |es| && es[i].Manage? ==> es[i].now <= now
  }

  /** The validators under the block's own configuration also select the peer for its child. */
  ghost predicate SelectsUnderOwn(env: Env, snap: Snapshot, self: PeerId)
    requires Known(env, snap.lastBlockRef)
  {
    var ref := HeaderOf(env, snap.lastBlockRef).chainConfigRef;
    && ref in env.configs && env.configs[ref].validatorSetRef in env.validatorSets
    && ExpectedProposer(env, env.validatorSets[env.configs[ref].validatorSetRef], snap.lastBlockRef, snap.height,
      snap.round) == Some(self)
  }

  /** Produced blocks are accepted, exactly: in any run of a node, restarts and adoptions included, a
      header built from an emitted snapshot by the proposer it names passes every structural check on
      its parent if and only if the parent carries the node's genesis reference and its own
      configuration selects the proposer too, which it does when it announces no other. */
  lemma {:induction false} ProposalFitsIff(env: Env, init: Chain, es: seq<Event>, snap: Snapshot, key: Key,
                                           self: PeerId, now: int, stateRef: Ref)
    requires Initial(env, init) && SelectionIgnoresOrder(env)
    requires snap in Run(env, init, es).emitted && ProposesFor(env, es, snap, key, self, now)
    ensures Known(env, snap.lastBlockRef)
    ensures HeaderFits(env, snap.lastBlockRef, MakeProposal(env, snap, self, now, stateRef)) <==>
            HeaderOf(env, snap.lastBlockRef).genesisRef == env.genesisRef && SelectsUnderOwn(env, snap, self)
    ensures var h := HeaderOf(env, snap.lastBlockRef);
            h.chainConfigRef == h.nextChainConfigRef ==> SelectsUnderOwn(env, snap, self)
  {
    EmittedOk(env, init, es, snap);
    var h := HeaderOf(env, snap.lastBlockRef);
    var i :| 0 <= i < |es| && es[i].Manage? && h.timestamp <= es[i].now;
    assert es[i].now <= now;
    var vs := env.validatorSets[env.configs[h.nextChainConfigRef].validatorSetRef];
    assert env.select(env.sort(vs), snap.lastBlockRef, snap.height, snap.round)
        == env.select(vs, snap.lastBlockRef, snap.height, snap.round);
  }

  /** So on a block validated down to a minted one they always are. */
  lemma {:induction false} ProposalOnChainFits(env: Env, init: Chain, es: seq<Event>, snap: Snapshot, key: Key,
                                               self: PeerId, now: int, stateRef: Ref, genesis: Ref, w: seq<Ref>)
    requires Initial(env, init) && SelectionIgnoresOrder(env)
    requires snap in Run(env, init, es).emitted && ProposesFor(env, es, snap, key, self, now)
    requires Minted(env, genesis) && Walk(env, genesis, snap.lastBlockRef, w)
    ensures Known(env, snap.lastBlockRef)
    ensures HeaderFits(env, snap.lastBlockRef, MakeProposal(env, snap, self, now, stateRef))
  {
    WalkOnChain(env, genesis, snap.lastBlockRef, w);
    ProposalFitsIff(env, init, es, snap, key, self, now, stateRef);
  }

  lemma {:induction false} EmittedWalk(env: Env, genesis: Ref, id: SegId, es: seq<Event>, snap: Snapshot)
    returns (w: seq<Ref>)
    requires Minted(env, genesis) && AdoptionsAbove(env, NewChain(env, genesis, id), es, id)
    requires snap in Run(env, NewChain(env, genesis, id), es).emitted
    ensures Walk(env, genesis, snap.lastBlockRef, w)
    decreases |es|
  {
    var c := NewChain(env, genesis, id);
    if snap in Run(env, c, es[..|es| - 1]).emitted {
      w := EmittedWalk(env, genesis, id, es[..|es| - 1], snap);
    } else {
      NewlyEmitted(env, Run(env, c, es[..|es| - 1]), es[|es| - 1], snap);
      w := GenesisWalk(env, genesis, id, es);
    }
  }

  /** Produced blocks are accepted: on a chain minted by NewChain, through any number of restarts, as
      long as every adopted segment is spliced above the genesis segment. */
  lemma {:induction false} ProducedBlocksAccepted(env: Env, genesis: Ref, id: SegId, es: seq<Event>, snap: Snapshot,
                                                  key: Key, self: PeerId, now: int, stateRef: Ref)
    requires Minted(env, genesis) && AdoptionsAbove(env, NewChain(env, genesis, id), es, id)
    requires SelectionIgnoresOrder(env)
    requires snap in Run(env, NewChain(env, genesis, id), es).emitted && ProposesFor(env, es, snap, key, self, now)
    ensures Known(env, snap.lastBlockRef)
    ensures HeaderFits(env, snap.lastBlockRef, MakeProposal(env, snap, self, now, stateRef))
  {
    var w := EmittedWalk(env, genesis, id, es, snap);
    assert Initial(env, NewChain(env, genesis, id));
    ProposalOnChainFits(env, NewChain(env, genesis, id), es, snap, key, self, now, stateRef, genesis, w);
  }

  /** The segment of a block has no successor. */
  ghost predicate Unspliced(g: Graph, r: Ref) {
    Rec(g, r).segment.Some? && Rec(g, r).segment.value in g.segs ==> g.segs[Rec(g, r).segment.value].next.None?
  }

  /** A head whose segment has no successor lies in the state segment. */
  lemma OpenStateSegment(env: Env, c: Chain)
    requires Inv(env, c) && c.head.Some? && Unspliced(c.graph, c.head.value)
    ensures c.stateSegment == Rec(c.graph, c.head.value).segment
  {
    HeadOwner(env, c);
    var s := Rec(c.graph, c.head.value).segment.value;
    var k: nat :| Climbs(c.graph, s, c.stateSegment.value, k);
    if k > 0 {
      var n := FirstHop(c.graph, s, c.stateSegment.value, k);
      PredecessorHasNext(env, c.graph, n);
    }
  }

  /** And adopted: if no other block was appended meanwhile and the application accepts it, the
      committed block extends the head's segment and becomes the next head. */
  lemma ProducedBlockBecomesHead(env: Env, c: Chain, snap: Snapshot, r: Ref, self: PeerId, at: int, stateRef: Ref,
                                 newId: SegId, mark: bool, now: int, later: int)
    requires Inv(env, c) && c.head == Some(snap.lastBlockRef)
    requires Known(env, r) && Rec(c.graph, r).segment.None?
    requires HeaderOf(env, r) == MakeProposal(env, snap, self, at, stateRef)
            && HeaderFits(env, snap.lastBlockRef, HeaderOf(env, r))
    requires Rec(c.graph, snap.lastBlockRef).next.None? && Unspliced(c.graph, snap.lastBlockRef)
    requires newId !in c.graph.segs
    ensures Step(env, Step(env, c, Commit(r, newId, Accepted(mark))), Manage(now, later)).head == Some(r)
  {
    OpenStateSegment(env, c);
  }
}
