/**
 The round clock and the snapshots it emits: which height and round a snapshot carries, how
 they evolve over a run, and what two snapshots of one round have in common.
 */
module ClockTheorems {
  import opened Blocks
  import opened SegmentGraph
  import opened ChainModel
  import opened ChainInvariant
  import opened HeadTheorems

  ghost predicate LexLe(h0: nat, r0: nat, h1: nat, r1: nat) {
    h0 < h1 || (h0 == h1 && r0 <= r1)
  }

  // ---------------------------------------------------------------------------------------
  // Emitted snapshots

  /** What a snapshot says is a function of its last block and its round, with times in nanoseconds and
      the configured lengths in milliseconds. The end of a round is the start of the following one;
      NextRoundStartTime is the start of the round after that. */
  ghost predicate SnapshotOk(env: Env, snap: Snapshot) {
    && Known(env, snap.lastBlockRef)
    && var h := HeaderOf(env, snap.lastBlockRef);
    && snap.height == h.height + 1
    && h.nextChainConfigRef in env.configs
    && var config := env.configs[h.nextChainConfigRef];
    && config.validatorSetRef in env.validatorSets
    && snap.validators == env.sort(env.validatorSets[config.validatorSetRef])
    && snap.proposer == env.select(snap.validators, snap.lastBlockRef, snap.height, snap.round)
    && snap.roundStart == h.timestamp + (config.minProposeAfterBlock + config.roundLength * snap.round) * 1_000_000
    && snap.roundEnd == snap.roundStart + config.roundLength * 1_000_000
    && snap.nextRoundStart == snap.roundEnd + config.roundLength * 1_000_000
  }

  /** A head carries the stored height, except on the state NewChain leaves, where it is still 0. */
  ghost predicate ClockOk(env: Env, c: Chain) {
    c.head.Some? ==> c.lastHeight == Height(env, c.head.value) + 1 || (c.lastHeight == 0 && c.lastRound == 0)
  }

  /** An emitted snapshot against the present state: not ahead of it, and about the present head
      or a lower one. */
  ghost predicate Past(env: Env, c: Chain, snap: Snapshot) {
    && SnapshotOk(env, snap) && c.head.Some?
    && (snap.lastBlockRef == c.head.value || Height(env, snap.lastBlockRef) < Height(env, c.head.value))
    && LexLe(snap.height, snap.round, c.lastHeight, c.lastRound)
  }

  ghost predicate Ordered(a: Snapshot, b: Snapshot) {
    && LexLe(a.height, a.round, b.height, b.round)
    && (a.height == b.height ==> a.lastBlockRef == b.lastBlockRef)
  }

  ghost predicate Emissions(env: Env, c: Chain) {
    && ClockOk(env, c)
    && (forall i :: 0 <= i < |c.emitted| ==> Past(env, c, c.emitted[i]))
    && (forall i, j :: 0 <= i < j < |c.emitted| ==> Ordered(c.emitted[i], c.emitted[j]))
  }

  lemma SnapshotTimes(env: Env, head: Ref, config: ChainConfig, height: nat, round: nat, later: int)
    requires Known(env, head) && HeaderOf(env, head).nextChainConfigRef in env.configs
    requires config == env.configs[HeaderOf(env, head).nextChainConfigRef]
            && config.validatorSetRef in env.validatorSets
    requires height == Height(env, head) + 1
    ensures SnapshotOk(env, MakeSnapshot(env, head, config, height, round, later))
  {
  }

  /** Raising the head, or the round under the same head, keeps the past in the past. */
  lemma PastKept(env: Env, c: Chain, d: Chain)
    requires Emissions(env, c) && d.emitted == c.emitted && d.head.Some?
    requires c.head.Some? ==> c.head == d.head || Height(env, c.head.value) < Height(env, d.head.value)
    requires d.head == c.head ==> LexLe(c.lastHeight, c.lastRound, d.lastHeight, d.lastRound)
    requires d.head != c.head ==> d.lastHeight == Height(env, d.head.value) + 1
    ensures forall i :: 0 <= i < |d.emitted| ==> Past(env, d, d.emitted[i])
  {
  }

  lemma ComputeEmissions(env: Env, c: Chain, now: int, later: int)
    requires Emissions(env, c) && (c.head.Some? ==> Known(env, c.head.value))
    ensures Emissions(env, ComputeEmitSnapshot(env, c, now, later))
  {
    if c.head.Some? {
      var d := Ticked(env, c, now);
      PastKept(env, c, d);
      if EmitOk(env, c.head, now) {
        SnapshotTimes(env, c.head.value, Clock(env, c.head.value, now).value, d.lastHeight, d.lastRound, later);
      }
    }
  }

  lemma ManageEmissions(env: Env, c: Chain, now: int, later: int)
    requires Inv(env, c) && Emissions(env, c) && c.stateSegment.Some?
    ensures Emissions(env, ManageStateOnce(env, c, now, later))
  {
    ManageHead(env, c, now, later);
    var t := Forward(c.graph, c.stateSegment.value);
    SetHeadOk(env, c, t);
    var c1 := AdoptHead(env, c.(stateSegment := Some(t)), c.graph.segs[t].head);
    if c.head.Some? {
      var w := ManageWalk(env, c, now, later);
      WalkFacts(env, c.head.value, c1.head.value, w);
    }
    PastKept(env, c, c1);
    ComputeEmissions(env, c1, now, later);
  }

  lemma StepEmissions(env: Env, c: Chain, e: Event)
    requires Inv(env, c) && Emissions(env, c)
    ensures Emissions(env, Step(env, c, e))
  {
    var d := Step(env, c, e);
    match e
    case Commit(_, _, _) =>
    case Rewind(_, _, _, _) =>
      if d.head.Some? { PastKept(env, c, d); }
    case Manage(now, later) =>
      if c.stateSegment.Some? { ManageEmissions(env, c, now, later); }
    case Stall =>
    case Restart(_, _) =>
  }

  /** Round clock, over whole runs: every snapshot emitted carries the height after its last
      block's, (height, round) never decreases however the clock moves, and snapshots of one
      height are about one block. */
  lemma {:induction false} RunEmissions(env: Env, c: Chain, es: seq<Event>)
    requires Inv(env, c) && Emissions(env, c)
    ensures Emissions(env, Run(env, c, es))
    decreases |es|
  {
    if es != [] {
      var fs := es[..|es| - 1];
      RunEmissions(env, c, fs);
      RunInv(env, c, fs);
      StepEmissions(env, Run(env, c, fs), es[|es| - 1]);
    }
  }

  lemma InitialEmissions(env: Env, c: Chain)
    requires Initial(env, c)
    ensures Inv(env, c) && Emissions(env, c) && c.emitted == []
  {
    InitialInv(env, c);
  }

  /** A step adds at most one snapshot, which is about the head it leaves and was due. */
  lemma StepEmitted(env: Env, c: Chain, e: Event)
    ensures var d := Step(env, c, e);
            || d.emitted == c.emitted || d.emitted == []
            || (var last := d.emitted[|d.emitted| - 1];
                && d.emitted == c.emitted + [last] && e.Manage? && d.head == Some(last.lastBlockRef)
                && Clock(env, d.head.value, e.now).Some?)
  {
  }

  /** A snapshot not emitted before is about the head. */
  lemma NewlyEmitted(env: Env, c: Chain, e: Event, snap: Snapshot)
    requires snap in Step(env, c, e).emitted && snap !in c.emitted
    ensures e.Manage? && Step(env, c, e).head == Some(snap.lastBlockRef)
    ensures Clock(env, snap.lastBlockRef, e.now).Some?
  {
    StepEmitted(env, c, e);
  }

  /** One proposer per round: two snapshots of a run with the same height and round name the same
      block and the same proposer. */
  lemma {:induction false} OneProposerPerRound(env: Env, c: Chain, es: seq<Event>, a: Snapshot, b: Snapshot)
    requires Inv(env, c) && Emissions(env, c)
    requires a in Run(env, c, es).emitted && b in Run(env, c, es).emitted
    requires a.height == b.height && a.round == b.round
    ensures a.lastBlockRef == b.lastBlockRef && a.proposer == b.proposer
  {
    RunEmissions(env, c, es);
    EmittedSameBlock(env, Run(env, c, es), a, b);
    EmittedIsOk(env, Run(env, c, es), a);
    EmittedIsOk(env, Run(env, c, es), b);
    SameProposer(env, a, b);
  }

  lemma EmittedIsOk(env: Env, d: Chain, snap: Snapshot)
    requires Emissions(env, d) && snap in d.emitted
    ensures SnapshotOk(env, snap)
  {
    var i :| 0 <= i < |d.emitted| && d.emitted[i] == snap;
    assert Past(env, d, d.emitted[i]);
  }

  lemma EmittedSameBlock(env: Env, d: Chain, a: Snapshot, b: Snapshot)
    requires Emissions(env, d) && a in d.emitted && b in d.emitted && a.height == b.height
    ensures a.lastBlockRef == b.lastBlockRef
  {
    var i :| 0 <= i < |d.emitted| && d.emitted[i] == a;
    var j :| 0 <= j < |d.emitted| && d.emitted[j] == b;
    assert i < j ==> Ordered(d.emitted[i], d.emitted[j]);
    assert j < i ==> Ordered(d.emitted[j], d.emitted[i]);
  }

  lemma SameProposer(env: Env, a: Snapshot, b: Snapshot)
    requires SnapshotOk(env, a) && SnapshotOk(env, b)
    requires a.lastBlockRef == b.lastBlockRef && a.height == b.height && a.round == b.round
    ensures a.proposer == b.proposer
  {
  }

  // ---------------------------------------------------------------------------------------
  // One reading of the clock

  /** The configuration that the block announces, for whom times are read. */
  ghost predicate Announces(env: Env, r: Ref, config: ChainConfig) {
    && Known(env, r) && HeaderOf(env, r).nextChainConfigRef in env.configs
    && env.configs[HeaderOf(env, r).nextChainConfigRef] == config
  }

  /** The clock has reached the block, whose announced configuration is known with rounds of a second
      or more. */
  ghost predicate Readable(env: Env, r: Ref, now: int) {
    && Known(env, r) && HeaderOf(env, r).timestamp <= now
    && HeaderOf(env, r).nextChainConfigRef in env.configs
    && env.configs[HeaderOf(env, r).nextChainConfigRef].roundLength >= 1000
  }

  /** The validator set is known, too. */
  ghost predicate Emittable(env: Env, r: Ref, now: int) {
    && Readable(env, r, now)
    && env.configs[HeaderOf(env, r).nextChainConfigRef].validatorSetRef in env.validatorSets
  }

  /** The number of whole rounds since the block, a round lasting roundLength milliseconds. */
  ghost function ElapsedRounds(env: Env, r: Ref, now: int): nat
    requires Readable(env, r, now)
  {
    WholeRounds(now - HeaderOf(env, r).timestamp, env.configs[HeaderOf(env, r).nextChainConfigRef].roundLength)
  }

  ghost function WholeRounds(elapsed: nat, length: nat): nat
    requires length > 0
  {
    Quotient(elapsed, length * 1_000_000)
  }

  ghost function Quotient(a: nat, k: nat): nat
    requires k > 0
  {
    a / k
  }

  lemma ClockReads(env: Env, r: Ref, now: int)
    ensures Clock(env, r, now).Some? <==> Readable(env, r, now)
    ensures Readable(env, r, now) ==> Announces(env, r, Clock(env, r, now).value)
    ensures Readable(env, r, now) ==> ExpectedRound(env, r, Clock(env, r, now).value, now) == ElapsedRounds(env, r, now)
  {
  }

  lemma EmitOkExact(env: Env, head: Option<Ref>, now: int)
    ensures EmitOk(env, head, now) <==> head.None? || Emittable(env, head.value, now)
  {
    if head.Some? { ClockReads(env, head.value, now); }
  }

  /** The stored height follows the head; the stored round starts again with a new height and then never
      falls, and reaches the number of elapsed rounds if the checks pass. */
  lemma ReadingExact(env: Env, c: Chain, now: int, later: int)
    requires c.head.Some? && Known(env, c.head.value)
    ensures var h, d := c.head.value, ComputeEmitSnapshot(env, c, now, later);
            var base := if c.lastHeight < Height(env, h) + 1 then 0 else c.lastRound;
            && d.lastHeight == (if c.lastHeight < Height(env, h) + 1 then Height(env, h) + 1 else c.lastHeight)
            && d.lastRound == (if Readable(env, h, now) && ElapsedRounds(env, h, now) > base
                               then ElapsedRounds(env, h, now) else base)
            && d.graph == c.graph && d.head == c.head && d.stateSegment == c.stateSegment
            && (!Emittable(env, h, now) ==> d.emitted == c.emitted)
  {
    ClockReads(env, c.head.value, now);
  }

  /** The segment a pass looks at: the successor of the state segment, if it has one. */
  ghost function Followed(g: Graph, s: SegId): SegId {
    if s !in g.segs then s else match g.segs[s].next
    case None => s
    case Some(n) => n
  }

  /** What a pass of manageStateOnce leaves: the head is on top of the followed segment, with the clock
      started afresh if it is a new one; then the clock is read. */
  lemma ManageExact(env: Env, c: Chain, now: int, later: int)
    requires Inv(env, c) && c.stateSegment.Some?
    ensures var t := Followed(c.graph, c.stateSegment.value);
            var d := Step(env, c, Manage(now, later));
            && t in c.graph.segs && Known(env, c.graph.segs[t].head)
            && var h := c.graph.segs[t].head;
            var up := Height(env, h) + 1;
            var base := if c.head != Some(h) || c.lastHeight < up then 0 else c.lastRound;
            && d.graph == c.graph && d.stateSegment == Some(t) && d.head == Some(h)
            && d.lastHeight == (if c.head == Some(h) && c.lastHeight > up then c.lastHeight else up)
            && d.lastRound == (if Readable(env, h, now) && ElapsedRounds(env, h, now) > base
                               then ElapsedRounds(env, h, now) else base)
            && (!Emittable(env, h, now) ==> d.emitted == c.emitted)
  {
    var t := Forward(c.graph, c.stateSegment.value);
    ForwardInSegs(env, c.graph, c.stateSegment.value);
    SetHeadOk(env, c, t);
    var c1 := AdoptHead(env, FastForward(c), c.graph.segs[t].head);
    ReadingExact(env, c1, now, later);
  }

  /** Without state segment a pass does nothing; one that cannot look up the head block only follows; and
      a restart keeps what is in the database. */
  lemma OtherStepsExact(env: Env, c: Chain, now: int, later: int, height: nat, round: nat)
    ensures c.stateSegment.None? ==> Step(env, c, Manage(now, later)) == c && Step(env, c, Stall) == c
    ensures c.stateSegment.Some? ==>
              Step(env, c, Stall) == c.(stateSegment := Some(Followed(c.graph, c.stateSegment.value)))
    ensures Step(env, c, Restart(height, round)) ==
            Chain(Graph(c.graph.records, c.graph.segs, {}), c.stateSegment, None, height, round, [])
  {
  }

  /** A subscriber could not tell the two apart: same round, same times, started or not, same proposer. */
  ghost predicate Alike(a: Snapshot, b: Snapshot) {
    && (a.height, a.round) == (b.height, b.round)
    && (a.roundStart, a.roundEnd, a.roundStarted) == (b.roundStart, b.roundEnd, b.roundStarted)
    && a.proposer.Some? && b.proposer.Some? && a.proposer.value.pubKey == b.proposer.value.pubKey
  }

  /** Snapshots that follow each other differ. */
  ghost predicate NoRepeat(emitted: seq<Snapshot>) {
    forall i :: 0 < i < |emitted| ==> !Alike(emitted[i - 1], emitted[i])
  }

  lemma StepNoRepeat(env: Env, c: Chain, e: Event)
    requires NoRepeat(c.emitted)
    ensures NoRepeat(Step(env, c, e).emitted)
  {
  }

  /** An unchanged state is not emitted again, in any run; as long as no proposer can be selected every
      reading emits. */
  lemma {:induction false} RunNoRepeat(env: Env, c: Chain, es: seq<Event>)
    requires NoRepeat(c.emitted)
    ensures NoRepeat(Run(env, c, es).emitted)
    decreases |es|
  {
    if es != [] {
      RunNoRepeat(env, c, es[..|es| - 1]);
      StepNoRepeat(env, Run(env, c, es[..|es| - 1]), es[|es| - 1]);
    }
  }

  /** The last snapshot emitted says how things stand: it is about the head, at the stored height and
      round, with that round's times and proposer, and says whether the round had started at `later`. */
  ghost predicate Current(env: Env, d: Chain, later: int) {
    && d.head.Some? && d.emitted != []
    && var last := d.emitted[|d.emitted| - 1];
    && SnapshotOk(env, last) && last.lastBlockRef == d.head.value
    && last.height == d.lastHeight && last.round == d.lastRound
    && (last.roundStarted <==> last.roundStart < later)
  }

  /** A reading that gets past the checks leaves a current snapshot. */
  lemma SnapshotIsCurrent(env: Env, c: Chain, now: int, later: int)
    requires Inv(env, c) && Emissions(env, c) && c.stateSegment.Some?
    ensures var d := ManageStateOnce(env, c, now, later);
            d.head.Some? && (Emittable(env, d.head.value, now) ==> Current(env, d, later))
  {
    ManageHead(env, c, now, later);
    StepEmissions(env, c, Manage(now, later));
    var t := Forward(c.graph, c.stateSegment.value);
    SetHeadOk(env, c, t);
    var c1 := AdoptHead(env, c.(stateSegment := Some(t)), c.graph.segs[t].head);
    var d := ComputeEmitSnapshot(env, c1, now, later);
    EmitOkExact(env, c1.head, now);
    if EmitOk(env, c1.head, now) {
      ComputedSnapshot(env, c1, now, later);
      assert Past(env, d, d.emitted[|d.emitted| - 1]);
    }
  }

  lemma ComputedSnapshot(env: Env, c: Chain, now: int, later: int)
    requires c.head.Some? && EmitOk(env, c.head, now)
    ensures var d := ComputeEmitSnapshot(env, c, now, later);
            && d.emitted != []
            && var last := d.emitted[|d.emitted| - 1];
            && last.height == d.lastHeight && last.round == d.lastRound
            && last.roundStarted == (last.roundStart < later)
  {
  }

  // ---------------------------------------------------------------------------------------
  // The round under a clock that does not go back

  /** The last reading of the clock in a run, if any. */
  ghost function LastReading(es: seq<Event>): Option<int>
    decreases |es|
  {
    if es == [] then None
    else if es[|es| - 1].Manage? then Some(es[|es| - 1].now)
    else LastReading(es[..|es| - 1])
  }

  /** The readings never decrease. */
  ghost predicate Monotone(es: seq<Event>)
    decreases |es|
  {
    es == [] ||
    (var fs, e := es[..|es| - 1], es[|es| - 1];
     Monotone(fs) && (e.Manage? && LastReading(fs).Some? ==> LastReading(fs).value <= e.now))
  }

  /** A round above 0 was computed from a reading no later than `t`. */
  ghost predicate RoundReached(env: Env, c: Chain, t: Option<int>) {
    c.head.Some? && c.lastRound > 0 ==>
    && t.Some? && Clock(env, c.head.value, t.value).Some?
    && c.lastRound <= ExpectedRound(env, c.head.value, Clock(env, c.head.value, t.value).value, t.value)
  }

  lemma DivMonotone(a: nat, b: nat, k: int)
    requires a <= b && k > 0
    ensures a / k <= b / k
  {
    var p, q := a / k, b / k;
    assert a == k * p + a % k && b == k * q + b % k;
    assert p > q ==> k * (q + 1) <= k * p;
  }

  lemma ReachedLater(env: Env, c: Chain, t: Option<int>, now: int)
    requires RoundReached(env, c, t) && (t.Some? ==> t.value <= now)
    ensures RoundReached(env, c, Some(now))
  {
    if c.head.Some? && c.lastRound > 0 {
      var config := Clock(env, c.head.value, t.value).value;
      var ts := HeaderOf(env, c.head.value).timestamp;
      DivMonotone(t.value - ts, now - ts, config.roundLength * MILLISECOND);
    }
  }

  /** After a reading that gets past the checks, the round is the elapsed time over the length. */
  lemma ComputeRound(env: Env, c: Chain, t: Option<int>, now: int, later: int)
    requires RoundReached(env, c, t) && (t.Some? ==> t.value <= now)
    ensures var d := ComputeEmitSnapshot(env, c, now, later);
            && RoundReached(env, d, Some(now)) && d.head == c.head
            && (d.head.Some? && Clock(env, d.head.value, now).Some? ==>
                  d.lastRound == ExpectedRound(env, d.head.value, Clock(env, d.head.value, now).value, now))
  {
    ReachedLater(env, c, t, now);
  }

  lemma StepRound(env: Env, c: Chain, t: Option<int>, e: Event)
    requires RoundReached(env, c, t) && !e.Restart? && (e.Manage? && t.Some? ==> t.value <= e.now)
    ensures RoundReached(env, Step(env, c, e), if e.Manage? then Some(e.now) else t)
    ensures e.Manage? && c.stateSegment.Some? && Inv(env, c) ==>
              var d := Step(env, c, e);
              d.head.Some? &&
              (Clock(env, d.head.value, e.now).Some? ==>
                 d.lastRound == ExpectedRound(env, d.head.value, Clock(env, d.head.value, e.now).value, e.now))
  {
    if e.Manage? {
      ReachedLater(env, c, t, e.now);
      if c.stateSegment.Some? {
        var s := Forward(c.graph, c.stateSegment.value);
        var c1 := c.(stateSegment := Some(s));
        if s in c.graph.segs {
          ComputeRound(env, AdoptHead(env, c1, c.graph.segs[s].head), t, e.now, e.later);
        }
        if Inv(env, c) { ManageHead(env, c, e.now, e.later); }
      }
    }
  }

  lemma {:induction false} RunRound(env: Env, c: Chain, es: seq<Event>)
    requires RoundReached(env, c, None) && NoRestart(es) && Monotone(es)
    ensures RoundReached(env, Run(env, c, es), LastReading(es))
    decreases |es|
  {
    if es != [] {
      var fs := es[..|es| - 1];
      RunRound(env, c, fs);
      StepRound(env, Run(env, c, fs), LastReading(fs), es[|es| - 1]);
    }
  }

  lemma {:induction false} LastRoundIsExpected(env: Env, c: Chain, es: seq<Event>, now: int, later: int)
    requires Inv(env, c) && RoundReached(env, c, None) && c.stateSegment.Some?
    requires NoRestart(es) && Monotone(es + [Manage(now, later)])
    ensures var d := Run(env, c, es + [Manage(now, later)]);
            && d.head.Some? && Known(env, d.head.value)
            && (Clock(env, d.head.value, now).Some? ==>
                  d.lastRound == ExpectedRound(env, d.head.value, Clock(env, d.head.value, now).value, now))
  {
    var all := es + [Manage(now, later)];
    assert all[..|all| - 1] == es;
    RunRound(env, c, es);
    RunInv(env, c, es);
    StateSegmentKept(env, c, es);
    StepInv(env, Run(env, c, es), all[|es|]);
    StepRound(env, Run(env, c, es), LastReading(es), all[|es|]);
  }

  /** With a clock that does not go back, the round after every reading is the elapsed time
      divided by the round length: the reading lies in that round's interval and in no other. */
  lemma {:induction false} RoundIsElapsedTime(env: Env, c: Chain, es: seq<Event>, now: int, later: int)
    requires Inv(env, c) && RoundReached(env, c, None) && c.stateSegment.Some?
    requires NoRestart(es) && Monotone(es + [Manage(now, later)])
    ensures var d := Run(env, c, es + [Manage(now, later)]);
            && d.head.Some? && Known(env, d.head.value)
            && (Readable(env, d.head.value, now) ==>
                  var elapsed := now - HeaderOf(env, d.head.value).timestamp;
                  var len := env.configs[HeaderOf(env, d.head.value).nextChainConfigRef].roundLength * 1_000_000;
                  && d.lastRound == elapsed / len
                  && forall r: nat :: len * r <= elapsed < len * (r + 1) <==> r == d.lastRound)
  {
    LastRoundIsExpected(env, c, es, now, later);
    var d := Run(env, c, es + [Manage(now, later)]);
    ClockReads(env, d.head.value, now);
    if Readable(env, d.head.value, now) {
      var elapsed := now - HeaderOf(env, d.head.value).timestamp;
      var len := env.configs[HeaderOf(env, d.head.value).nextChainConfigRef].roundLength * 1_000_000;
      forall r: nat ensures len * r <= elapsed < len * (r + 1) <==> r == elapsed / len {
        Tiling(elapsed, len, r);
      }
    }
  }

  /** The reading lies in the interval of the stored round. */
  ghost predicate InStoredRound(env: Env, d: Chain, now: int) {
    && d.head.Some? && Readable(env, d.head.value, now)
    && var elapsed := now - HeaderOf(env, d.head.value).timestamp;
    var len := env.configs[HeaderOf(env, d.head.value).nextChainConfigRef].roundLength * 1_000_000;
    len * d.lastRound <= elapsed < len * (d.lastRound + 1)
  }

  lemma {:induction false} StoredRoundHolds(env: Env, c: Chain, es: seq<Event>, now: int, later: int)
    requires Inv(env, c) && RoundReached(env, c, None) && c.stateSegment.Some?
    requires NoRestart(es) && Monotone(es + [Manage(now, later)])
    ensures var d := Run(env, c, es + [Manage(now, later)]);
            d.head.Some? && (Readable(env, d.head.value, now) ==> InStoredRound(env, d, now))
  {
    RoundIsElapsedTime(env, c, es, now, later);
  }

  /** And the last snapshot emitted is of the round in which the reading lies, each round being open from
      minProposeAfterBlock milliseconds after it begins. */
  lemma {:induction false} ReadingInRound(env: Env, c: Chain, es: seq<Event>, now: int, later: int)
    requires Inv(env, c) && Emissions(env, c) && RoundReached(env, c, None) && c.stateSegment.Some?
    requires NoRestart(es) && Monotone(es + [Manage(now, later)])
    ensures var d := Run(env, c, es + [Manage(now, later)]);
            && d.head.Some?
            && (Emittable(env, d.head.value, now) ==>
                  && Current(env, d, later)
                  && var last := d.emitted[|d.emitted| - 1];
                  var config := env.configs[HeaderOf(env, d.head.value).nextChainConfigRef];
                  var wait := config.minProposeAfterBlock * 1_000_000;
                  last.roundStart <= now + wait < last.roundEnd)
  {
    var all := es + [Manage(now, later)];
    assert all[..|all| - 1] == es;
    StoredRoundHolds(env, c, es, now, later);
    RunInv(env, c, es);
    RunEmissions(env, c, es);
    StateSegmentKept(env, c, es);
    SnapshotIsCurrent(env, Run(env, c, es), now, later);
    var d := Run(env, c, all);
    if Emittable(env, d.head.value, now) { CurrentInRound(env, d, now, later); }
  }

  lemma CurrentInRound(env: Env, d: Chain, now: int, later: int)
    requires Current(env, d, later) && InStoredRound(env, d, now)
    ensures var last := d.emitted[|d.emitted| - 1];
            var wait := env.configs[HeaderOf(env, d.head.value).nextChainConfigRef].minProposeAfterBlock * 1_000_000;
            last.roundStart <= now + wait < last.roundEnd
  {
    var config := env.configs[HeaderOf(env, d.head.value).nextChainConfigRef];
    RoundBounds(now - HeaderOf(env, d.head.value).timestamp, config.roundLength, config.minProposeAfterBlock,
      d.lastRound);
  }

  lemma RoundBounds(elapsed: nat, length: nat, wait: nat, r: nat)
    requires length * 1_000_000 * r <= elapsed < length * 1_000_000 * (r + 1)
    ensures (wait + length * r) * 1_000_000 <= elapsed + wait * 1_000_000
    ensures elapsed + wait * 1_000_000 < (wait + length * r) * 1_000_000 + length * 1_000_000
  {
  }

  lemma Tiling(t: nat, len: int, r: nat)
    requires len > 0
    ensures len * r <= t < len * (r + 1) <==> r == t / len
  {
    var q := t / len;
    assert t == len * q + t % len;
    if r < q { assert len * (r + 1) <= len * q; }
    if r > q { assert len * (q + 1) <= len * r; }
  }

  lemma StepStateSegment(env: Env, c: Chain, e: Event)
    requires c.stateSegment.Some? && Inv(env, c)
    ensures Step(env, c, e).stateSegment.Some?
  {
    if e.Manage? { ManageHead(env, c, e.now, e.later); }
    if e.Rewind? && e.pick in c.graph.segs { RewindHead(env, c, e.pick, e.fetched, e.verdict, e.resolved); }
  }

  lemma {:induction false} StateSegmentKept(env: Env, c: Chain, es: seq<Event>)
    requires Inv(env, c) && c.stateSegment.Some?
    ensures Run(env, c, es).stateSegment.Some?
    decreases |es|
  {
    if es != [] {
      var fs := es[..|es| - 1];
      StateSegmentKept(env, c, fs);
      RunInv(env, c, fs);
      StepStateSegment(env, Run(env, c, fs), es[|es| - 1]);
    }
  }
}
