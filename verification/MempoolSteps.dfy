/**
 What each step of the proposal pipeline does, goroutine by goroutine: when it can happen, where the
 transactions go, and what is signalled (utils/transaction/mempool/mempool.go, proposer.go).
 */
module MempoolSteps {
  import opened Mempool

  // ---------------------------------------------------------------------------------------
  // Where transactions go

  /** The pool `q` is `p` with `txs` enqueued again, those whose Enqueue fails being dropped. */
  ghost predicate PutBack(p: Pool, q: Pool, txs: seq<TxId>, unlucky: set<TxId>) {
    && q.supply == p.supply && q.rejected == p.rejected
    && (forall t :: q.heap[t] == p.heap[t] + if t in unlucky then 0 else Count(txs, t))
    && (forall t :: q.dropped[t] == p.dropped[t] + if t in unlucky then Count(txs, t) else 0)
  }

  lemma PutBackOne(p: Pool, tx: TxId, unlucky: set<TxId>)
    ensures PutBack(p, Requeue(p, tx, unlucky), [tx], unlucky)
  {
    forall t ensures Count([tx], t) == One(tx, t) { CountIsMultiset([tx], t); }
  }

  lemma {:induction false} PutBackAll(p: Pool, txs: seq<TxId>, unlucky: set<TxId>)
    ensures PutBack(p, RequeueAll(p, txs, unlucky), txs, unlucky)
    decreases |txs|
  {
    if txs != [] { PutBackAll(p, txs[..|txs| - 1], unlucky); }
  }

  /** Turned down or unresolvable. */
  ghost predicate Dismissed(p: Pool, q: Pool, tx: TxId) {
    q == Pool(p.heap, p.supply, p.rejected + multiset{tx}, p.dropped)
  }

  // ---------------------------------------------------------------------------------------
  // The world

  lemma WorldSteps(opts: Opts, app: App, p: Pipe, e: EnvEvent)
    ensures var q := Step(opts, app, p, World(e));
            match e
            case Submit(tx) =>
              q == p.(pool := Pool(p.pool.heap + multiset{tx}, p.pool.supply + multiset{tx}, p.pool.rejected,
                p.pool.dropped))
            case Cancel => q == p.(cancelled := true)
            case Stop => q == p.(cancelled := true, stopped := true)
  {
  }

  /** A stop and a return both cancel the collection. */
  ghost predicate CancelledOnEnd(p: Pipe) {
    p.stopped || p.applier.Returned? ==> p.cancelled
  }

  lemma StepCancelled(opts: Opts, app: App, p: Pipe, e: Event)
    requires CancelledOnEnd(p)
    ensures CancelledOnEnd(Step(opts, app, p, e))
  {
  }

  lemma {:induction false} RunCancelled(opts: Opts, app: App, heap: multiset<TxId>, es: seq<Event>)
    ensures CancelledOnEnd(Run(opts, app, Start(opts, app, heap), es))
    decreases |es|
  {
    if es != [] {
      RunCancelled(opts, app, heap, es[..|es| - 1]);
      StepCancelled(opts, app, Run(opts, app, Start(opts, app, heap), es[..|es| - 1]), es[|es| - 1]);
    }
  }

  // ---------------------------------------------------------------------------------------
  // The collector

  lemma CollectorTakes(opts: Opts, app: App, p: Pipe, tx: TxId)
    ensures Step(opts, app, p, Collect(Take(tx))) ==
            if p.collector != Taking || p.pool.heap[tx] == 0 then p
            else p.(collector := Offering(tx), pool := p.pool.(heap := p.pool.heap - multiset{tx}))
    ensures Step(opts, app, p, Collect(FindEmpty)) ==
            if p.collector == Taking && |p.pool.heap| == 0 then p.(collector := Idle) else p
    ensures Step(opts, app, p, Collect(TakeFails)) ==
            if p.collector == Taking then p.(collector := CollectorDone, errs := p.errs + [OtherError]) else p
  {
  }

  /** Once cancelled, an offering or idle collector gives back what it holds, reports and ends. */
  lemma CollectorEnds(opts: Opts, app: App, p: Pipe, signal: Signal, unlucky: set<TxId>)
    ensures var q := Step(opts, app, p, Collect(SeeCancelled(signal, unlucky)));
            if p.cancelled && signal != NoError && (p.collector == Idle || p.collector.Offering?) then
              && PutBack(p.pool, q.pool, if p.collector == Idle then [] else [p.collector.tx], unlucky)
              && q == p.(pool := q.pool, collector := CollectorDone, errs := p.errs + [signal])
            else q == p
  {
    if p.collector.Offering? { PutBackOne(p.pool, p.collector.tx, unlucky); }
    assert PutBack(p.pool, p.pool, [], unlucky);
  }

  /** A hand-over counts down a positive maximum; the last one ends the collector with a nil error. */
  lemma CollectorHandsOver(opts: Opts, app: App, p: Pipe)
    ensures Step(opts, app, p, Collect(HandOff)) ==
            if !p.collector.Offering? || p.resolver != Receiving then p
            else if p.budget == 1 then
              p.(resolver := Looking(p.collector.tx), collector := CollectorDone, budget := 0,
                 errs := p.errs + [NoError])
            else
              p.(resolver := Looking(p.collector.tx), collector := Taking,
                 budget := if p.budget == 0 then 0 else p.budget - 1)
  {
  }

  // ---------------------------------------------------------------------------------------
  // The resolver

  lemma ResolverEnds(opts: Opts, app: App, p: Pipe, unlucky: set<TxId>)
    ensures Step(opts, app, p, Resolve(SeeEnd)) ==
            if p.resolver == Receiving && (p.collector == CollectorDone || p.cancelled)
            then p.(resolver := ResolverDone) else p
    ensures var q := Step(opts, app, p, Resolve(ForwardCancelled(unlucky)));
            if p.resolver.Forwarding? && p.cancelled then
              PutBack(p.pool, q.pool, [p.resolver.tx], unlucky) && q == p.(pool := q.pool, resolver := ResolverDone)
            else q == p
  {
    if p.resolver.Forwarding? { PutBackOne(p.pool, p.resolver.tx, unlucky); }
  }

  /** A transaction that cannot be looked up is dismissed, unless the lookup was cancelled. */
  lemma ResolverLooksUp(opts: Opts, app: App, p: Pipe, unlucky: set<TxId>)
    requires p.resolver.Looking?
    ensures Step(opts, app, p, Resolve(LookupOk)) == p.(resolver := Checking(p.resolver.tx))
    ensures var q := Step(opts, app, p, Resolve(LookupFails));
            Dismissed(p.pool, q.pool, p.resolver.tx) && q == p.(pool := q.pool, resolver := Receiving)
    ensures var q := Step(opts, app, p, Resolve(LookupCancelled(unlucky)));
            PutBack(p.pool, q.pool, [p.resolver.tx], unlucky) && q == p.(pool := q.pool, resolver := Receiving)
  {
    PutBackOne(p.pool, p.resolver.tx, unlucky);
  }

  /** A rejected transaction is dismissed and ends the resolver; a failing check gives it back, reports,
      cancels the collection and ends the resolver, too. */
  lemma ResolverChecks(opts: Opts, app: App, p: Pipe, signal: Signal, unlucky: set<TxId>)
    requires p.resolver.Checking?
    ensures Step(opts, app, p, Resolve(CheckOk)) == p.(resolver := Forwarding(p.resolver.tx))
    ensures var q := Step(opts, app, p, Resolve(CheckRejects));
            Dismissed(p.pool, q.pool, p.resolver.tx) && q == p.(pool := q.pool, resolver := ResolverDone)
    ensures var q := Step(opts, app, p, Resolve(CheckFails(signal, unlucky)));
            if signal == NoError then q == p
            else
              && PutBack(p.pool, q.pool, [p.resolver.tx], unlucky)
              && q == p.(pool := q.pool, resolver := ResolverDone, errs := p.errs + [signal], cancelled := true)
  {
    PutBackOne(p.pool, p.resolver.tx, unlucky);
  }

  /** Out of turn, the resolver does nothing. */
  lemma ResolverWaits(opts: Opts, app: App, p: Pipe, f: ResolverEvent)
    requires match f
             case SeeEnd => p.resolver != Receiving
             case ForwardCancelled(_) => !p.resolver.Forwarding?
             case LookupOk => !p.resolver.Looking?
             case LookupFails => !p.resolver.Looking?
             case LookupCancelled(_) => !p.resolver.Looking?
             case CheckOk => !p.resolver.Checking?
             case CheckRejects => !p.resolver.Checking?
             case CheckFails(_, _) => !p.resolver.Checking?
    ensures Step(opts, app, p, Resolve(f)) == p
  {
  }

  // ---------------------------------------------------------------------------------------
  // The apply loop

  /** The function returns with `outcome`, what was applied goes back to the pool, and the collection is
      cancelled. */
  ghost predicate GivesUp(p: Pipe, q: Pipe, applied: seq<TxId>, outcome: Outcome, unlucky: set<TxId>) {
    && PutBack(p.pool, q.pool, applied, unlucky)
    && q == p.(pool := q.pool, applier := Returned(outcome), cancelled := true)
  }

  lemma GivingUp(p: Pipe, applied: seq<TxId>, outcome: Outcome, unlucky: set<TxId>)
    ensures GivesUp(p, RequeueAndReturn(p, applied, outcome, unlucky), applied, outcome, unlucky)
  {
    PutBackAll(p.pool, applied, unlucky);
  }

  /** The loop starts once the parent's state is found; without it nothing has been applied. */
  lemma LoopStarts(opts: Opts, app: App, p: Pipe)
    requires p.applier.Selecting? && p.resolver == Unstarted
    ensures Step(opts, app, p, Apply(StateFound)) == p.(resolver := Receiving)
    ensures Step(opts, app, p, Apply(StateFails)) == p.(applier := Returned(Failed), cancelled := true)
  {
  }

  /** A transaction that makes the application fail goes back with all others; a declined one is
      dismissed, and its effect on the state stays. */
  lemma LoopApplies(opts: Opts, app: App, p: Pipe, w: Work, tx: TxId, waitElapsed: bool, unlucky: set<TxId>)
    requires p.applier == Selecting(w) && p.resolver == Forwarding(tx)
    ensures GivesUp(p.(resolver := Receiving), Step(opts, app, p, Apply(ApplyNext(true, waitElapsed, unlucky))),
                    w.applied + [tx], Failed, unlucky)
    ensures var q := Step(opts, app, p, Apply(ApplyNext(false, waitElapsed, unlucky)));
            app.apply(w.pending, tx).Declined? ==>
              && Dismissed(p.pool, q.pool, tx)
              && q == p.(pool := q.pool, resolver := Receiving,
                         applier := Selecting(Work(w.applied, w.refs, app.apply(w.pending, tx).state)))
  {
    GivingUp(p.(resolver := Receiving), w.applied + [tx], Failed, unlucky);
  }

  /** The first error ends the loop: with abstention if nothing is applied and it is a cancellation, and
      with a failure otherwise. A nil error is skipped. */
  lemma LoopHears(opts: Opts, app: App, p: Pipe, w: Work, unlucky: set<TxId>)
    requires p.applier == Selecting(w) && p.resolver != Unstarted
    ensures var q, rest := Step(opts, app, p, Apply(ReceiveErr(unlucky))), p.(errs := if p.errs == [] then []
            else p.errs[1..]);
            if p.errs == [] then q == p
            else match p.errs[0]
              case NoError => q == rest
              case CanceledError => GivesUp(rest, q, w.applied, if w.applied == [] then Abstained else Failed, unlucky)
              case OtherError => GivesUp(rest, q, w.applied, Failed, unlucky)
    ensures var q := Step(opts, app, p, Apply(SeeStop(unlucky)));
            if p.stopped then GivesUp(p, q, w.applied, Failed, unlucky) else q == p
    ensures Step(opts, app, p, Apply(SeeClosed)) == if p.resolver == ResolverDone then p.(applier := LeftLoop(w)) else p
  {
    if p.errs != [] { GivingUp(p.(errs := p.errs[1..]), w.applied, Failed, unlucky); }
    GivingUp(p, w.applied, Failed, unlucky);
    assert PutBack(p.pool, p.pool, [], unlucky);
  }

  /** After the loop an error returns at once and gives nothing back. */
  lemma AfterLoopChecks(opts: Opts, app: App, p: Pipe, w: Work)
    requires p.applier == LeftLoop(w)
    ensures Step(opts, app, p, Apply(AfterLoop)) ==
            if p.errs == [] then p.(applier := Finishing(w))
            else if p.errs[0] == NoError then p.(applier := Finishing(w), errs := p.errs[1..])
            else p.(applier := Returned(FailedAfterLoop(w.applied)), errs := p.errs[1..], cancelled := true)
  {
  }

  /** A block below the minimum is abstained from and one that cannot be stored fails, both giving the
      transactions back; otherwise the work is the proposal. */
  lemma ProposalReturns(opts: Opts, app: App, p: Pipe, w: Work, stored: bool, unlucky: set<TxId>)
    requires p.applier == Finishing(w)
    ensures var q := Step(opts, app, p, Apply(Finish(stored, unlucky)));
            if |w.refs| >= opts.min && stored then
              q == p.(applier := Returned(Proposed(w.pending, w.applied, w.refs)), cancelled := true)
            else GivesUp(p, q, w.applied, if |w.refs| >= opts.min then Failed else Abstained, unlucky)
  {
    GivingUp(p, w.applied, Failed, unlucky);
    GivingUp(p, w.applied, Abstained, unlucky);
  }

  /** Out of turn, the loop does nothing. */
  lemma LoopWaits(opts: Opts, app: App, p: Pipe, f: ApplierEvent)
    requires match f
             case StateFound => !(p.applier.Selecting? && p.resolver == Unstarted)
             case StateFails => !(p.applier.Selecting? && p.resolver == Unstarted)
             case ApplyNext(_, _, _) => !(p.applier.Selecting? && p.resolver.Forwarding?)
             case ReceiveErr(_) => !p.applier.Selecting? || p.resolver == Unstarted
             case SeeStop(_) => !p.applier.Selecting? || p.resolver == Unstarted
             case SeeClosed => !p.applier.Selecting?
             case AfterLoop => !p.applier.LeftLoop?
             case Finish(_, _) => !p.applier.Finishing?
    ensures Step(opts, app, p, Apply(f)) == p
  {
  }
}
