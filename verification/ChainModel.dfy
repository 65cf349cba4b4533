/**
 The chain on top of the segment graph: which block is the head, which segment is the state
 segment, the round clock and the snapshots emitted (chain/chain.go). Each handler is one
 atomic step; a run is any finite sequence of steps.
 */
module ChainModel {
  import opened Blocks
  import opened SegmentGraph

  // Times are nanoseconds, as in Go's time package.
  const MILLISECOND := 1_000_000
  const SECOND := 1_000_000_000

  datatype Snapshot = Snapshot(
    height: nat,
    round: nat,
    roundStart: int,
    roundEnd: int,
    nextRoundStart: int,
    roundStarted: bool,
    proposer: Option<Validator>,
    lastBlockRef: Ref,
    validators: seq<Validator>)

  /** `emitted` records the snapshots of the current run; its last entry is the code's
      lastStateSnapshot. */
  datatype Chain = Chain(
    graph: Graph,
    stateSegment: Option<SegId>,
    head: Option<Ref>,
    lastHeight: nat,
    lastRound: nat,
    emitted: seq<Snapshot>)

  // ---------------------------------------------------------------------------------------
  // Initial states

  /** FromConfig on an empty database. */
  const EMPTY := Chain(Graph(map[], map[], {}), None, None, 0, 0, [])

  /** The header NewChain mints. */
  ghost predicate Minted(env: Env, genesis: Ref) {
    && Known(env, genesis)
    && var h := HeaderOf(env, genesis);
    && h.genesisRef == env.genesisRef
    && h.chainConfigRef == env.initConfigRef && h.nextChainConfigRef == env.initConfigRef
    && h.lastBlockRef.None? && h.height == 0 && h.round == 0
  }

  /** The state NewChain leaves behind. */
  function NewChain(env: Env, genesis: Ref, id: SegId): Chain {
    Chain(NewSegment(env, EMPTY.graph, genesis, id), Some(id), Some(genesis), 0, 0, [])
  }

  // ---------------------------------------------------------------------------------------
  // Head block

  function SetHeadBlock(env: Env, c: Chain, h: Ref): Chain {
    c.(head := Some(h), stateSegment := Rec(c.graph, h).segment, lastHeight := Height(env, h) + 1, lastRound := 0)
  }

  /** The tests under which HandleSegmentUpdated adopts a disjointed segment. */
  predicate Adoptable(env: Env, seg: Seg) {
    && Known(env, seg.head) && Known(env, seg.tail)
    && var matches := HeaderOf(env, seg.tail).chainConfigRef == env.initConfigRef;
    if seg.tailHeight == 0 then matches
    else
      || matches
      || (var ref := HeaderOf(env, seg.head).chainConfigRef;
          && env.initConfigRef in env.configs && ref in env.configs
          && env.configs[env.initConfigRef].validatorSetRef == env.configs[ref].validatorSetRef)
  }

  function HandleSegmentUpdated(env: Env, c: Chain, id: SegId, resolved: bool): Chain {
    if id !in c.graph.segs then c
    else
      var seg := c.graph.segs[id];
      if seg.status != Disjointed || c.head.Some? || !resolved || !Adoptable(env, seg) then c
      else SetHeadBlock(env, c.(graph := MarkValid(c.graph, id)), seg.head)
  }

  // ---------------------------------------------------------------------------------------
  // The round clock

  function RoundStart(config: ChainConfig, blockTime: int, round: nat): int {
    blockTime + config.minProposeAfterBlock * MILLISECOND + config.roundLength * MILLISECOND * round
  }

  function MakeSnapshot(env: Env, head: Ref, config: ChainConfig, height: nat, round: nat, later: int): Snapshot
    requires Known(env, head) && config.validatorSetRef in env.validatorSets
  {
    var start := RoundStart(config, HeaderOf(env, head).timestamp, round);
    var end := start + config.roundLength * MILLISECOND;
    var validators := env.sort(env.validatorSets[config.validatorSetRef]);
    Snapshot(height, round, start, end, end + config.roundLength * MILLISECOND, start < later,
             env.select(validators, head, height, round), head, validators)
  }

  /** The comparison that decides whether a snapshot is emitted again. */
  predicate SameState(last: Snapshot, curr: Snapshot) {
    && last.round == curr.round && last.height == curr.height
    && last.roundEnd == curr.roundEnd && last.roundStart == curr.roundStart
    && last.roundStarted == curr.roundStarted
    && last.proposer.Some? && curr.proposer.Some? && last.proposer.value.pubKey == curr.proposer.value.pubKey
  }

  function Emit(c: Chain, snap: Snapshot): Chain {
    if c.emitted != [] && SameState(c.emitted[|c.emitted| - 1], snap) then c
    else c.(emitted := c.emitted + [snap])
  }

  /** The catch-up of the stored height to the head. */
  function Caught(env: Env, c: Chain): Chain {
    if c.head.Some? && Height(env, c.head.value) + 1 > c.lastHeight
    then c.(lastHeight := Height(env, c.head.value) + 1, lastRound := 0) else c
  }

  /** The configuration under which the clock ticks, if every check before it passes. */
  function Clock(env: Env, head: Ref, now: int): Option<ChainConfig> {
    if !Known(env, head) then None
    else
      var h := HeaderOf(env, head);
      if now < h.timestamp || h.nextChainConfigRef !in env.configs then None
      else
        var config := env.configs[h.nextChainConfigRef];
        if config.roundLength * MILLISECOND < SECOND then None else Some(config)
  }

  function ExpectedRound(env: Env, head: Ref, config: ChainConfig, now: int): (r: nat)
    requires Known(env, head) && HeaderOf(env, head).timestamp <= now && config.roundLength * MILLISECOND >= SECOND
  {
    (now - HeaderOf(env, head).timestamp) / (config.roundLength * MILLISECOND)
  }

  /** computeEmitSnapshot reports no error. */
  predicate EmitOk(env: Env, head: Option<Ref>, now: int) {
    head.Some? ==>
    && Clock(env, head.value, now).Some?
    && Clock(env, head.value, now).value.validatorSetRef in env.validatorSets
  }

  /** The stored height and round after a reading of the clock. */
  function Ticked(env: Env, c: Chain, now: int): Chain {
    var d := Caught(env, c);
    if c.head.None? || Clock(env, c.head.value, now).None? then d
    else
      var expected := ExpectedRound(env, c.head.value, Clock(env, c.head.value, now).value, now);
      d.(lastRound := if expected > d.lastRound then expected else d.lastRound)
  }

  function ComputeEmitSnapshot(env: Env, c: Chain, now: int, later: int): Chain {
    var d := Ticked(env, c, now);
    if c.head.None? || !EmitOk(env, c.head, now) then d
    else Emit(d, MakeSnapshot(env, c.head.value, Clock(env, c.head.value, now).value, d.lastHeight, d.lastRound,
      later))
  }

  // ---------------------------------------------------------------------------------------
  // Steps and runs

  /** The segment manageStateOnce looks at: the state segment or, one hop on, its successor. */
  function Forward(g: Graph, s: SegId): SegId {
    if s in g.segs && g.segs[s].next.Some? then g.segs[s].next.value else s
  }

  function AdoptHead(env: Env, c: Chain, h: Ref): Chain {
    if c.head == Some(h) then c else SetHeadBlock(env, c, h)
  }

  /** The fast-forward of manageStateOnce over at most one splice. */
  function FastForward(c: Chain): Chain {
    if c.stateSegment.None? then c else c.(stateSegment := Some(Forward(c.graph, c.stateSegment.value)))
  }

  /** manageStateOnce; a chain without state segment only reports an error. */
  function ManageStateOnce(env: Env, c: Chain, now: int, later: int): Chain {
    if c.stateSegment.None? then c
    else
      var t := Forward(c.graph, c.stateSegment.value);
      var c1 := c.(stateSegment := Some(t));
      if t !in c.graph.segs || !Known(env, c.graph.segs[t].head) then c1
      else ComputeEmitSnapshot(env, AdoptHead(env, c1, c.graph.segs[t].head), now, later)
  }

  /** The second half of SegmentStore.RewindOnce: after the rewind of `pick`, report the segment or
      its predecessor to the chain and queue it again while it is disjointed. */
  function ReportRewound(env: Env, c: Chain, pick: SegId, r: Rewound, resolved: bool): Chain {
    if !r.ok then c.(graph := r.graph)
    else
      var t := RewindTarget(r.graph, pick);
      var d := HandleSegmentUpdated(env, c.(graph := r.graph), t, resolved);
      d.(graph := PushIfDisjointed(d.graph, t))
  }

  function RewindOnce(env: Env, c: Chain, pick: SegId, fetched: bool, verdict: Verdict, resolved: bool): Chain
    requires pick in c.graph.segs
  {
    ReportRewound(env, c, pick, RewindSegment(env, PopQueue(c.graph, pick), pick, fetched, verdict), resolved)
  }

  /** What the environment decides: which block arrives, which queued segment the heap gives up,
      what the application says, whether lookups resolve, and what the clock reads. `Stall` is a
      pass of manageStateOnce that fails to look up the head block after the fast-forward. */
  datatype Event =
    | Commit(ref: Ref, id: SegId, verdict: Verdict)
    | Rewind(pick: SegId, fetched: bool, verdict: Verdict, resolved: bool)
    | Manage(now: int, later: int)
    | Stall
    | Restart(height: nat, round: nat)

  function Step(env: Env, c: Chain, e: Event): Chain {
    match e
    case Commit(ref, id, verdict) =>
      if id in c.graph.segs then c else c.(graph := CommitBlock(env, c.graph, ref, id, verdict))
    case Rewind(pick, fetched, verdict, resolved) =>
      if pick in c.graph.queue && pick in c.graph.segs then RewindOnce(env, c, pick, fetched, verdict, resolved) else c
    case Manage(now, later) =>
      ManageStateOnce(env, c, now, later)
    case Stall =>
      FastForward(c)
    case Restart(height, round) =>
      // the queue, the head and the last snapshot live in memory only
      Chain(c.graph.(queue := {}), c.stateSegment, None, height, round, [])
  }

  /** The graph when a rewind reports to the chain. */
  function Pulled(env: Env, c: Chain, e: Event): Graph
    requires e.Rewind? && e.pick in c.graph.segs
  {
    RewindSegment(env, PopQueue(c.graph, e.pick), e.pick, e.fetched, e.verdict).graph
  }

  /** The guards under which a rewind makes a node without head adopt the segment `t`. */
  ghost predicate Adopts(env: Env, c: Chain, e: Event, t: SegId) {
    && e.Rewind? && e.pick in c.graph.queue && e.pick in c.graph.segs
    && RewindSegment(env, PopQueue(c.graph, e.pick), e.pick, e.fetched, e.verdict).ok
    && var g := Pulled(env, c, e);
    && t == RewindTarget(g, e.pick) && t in g.segs && g.segs[t].status == Disjointed
    && c.head.None? && e.resolved && Adoptable(env, g.segs[t])
  }

  function Run(env: Env, c: Chain, es: seq<Event>): Chain
    decreases |es|
  {
    if es == [] then c else Step(env, Run(env, c, es[..|es| - 1]), es[|es| - 1])
  }

  ghost predicate NoRestart(es: seq<Event>) {
    forall i :: 0 <= i < |es| ==> !es[i].Restart?
  }

  lemma {:induction false} RunFirst(env: Env, c: Chain, e: Event, es: seq<Event>)
    ensures Run(env, c, [e] + es) == Run(env, Step(env, c, e), es)
    decreases |es|
  {
    var all := [e] + es;
    if es == [] {
      assert all[..0] == [];
    } else {
      assert all[..|all| - 1] == [e] + es[..|es| - 1];
      RunFirst(env, c, e, es[..|es| - 1]);
    }
  }
}
