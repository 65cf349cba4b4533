/**
 The mempool proposal pipeline (utils/transaction/mempool): three goroutines that collect,
 resolve and apply transactions, joined by unbuffered channels. Modelled as interleaved steps;
 every schedule, cancellation and application decision is an event.
 */
module Mempool {
  import opened Blocks

  type TxId = int

  /** Application states are identified with their serialized references. */
  type AppState = Ref

  datatype Effect = Took(state: AppState) | Declined(state: AppState)

  /** `apply` is ApplicationState.Apply without system errors, which are events; `refOf` gives a
      transaction's node message reference. */
  datatype App = App(parent: AppState, apply: (AppState, TxId) -> Effect, refOf: TxId -> Ref)

  /** MinBlockTransactions and MaxBlockTranasctions. */
  datatype Opts = Opts(min: int, max: int)

  datatype Collector = Taking | Offering(tx: TxId) | Idle | CollectorDone

  /** The resolver is started once the parent's application state has been looked up. */
  datatype Resolver =
    Unstarted | Receiving | Looking(tx: TxId) | Checking(tx: TxId) | Forwarding(tx: TxId) | ResolverDone

  datatype Outcome =
    | Proposed(state: AppState, txs: seq<TxId>, refs: seq<Ref>)
    | Abstained
    | Failed
    | FailedAfterLoop(lost: seq<TxId>)

  /** The apply loop's own variables: appliedTxs, txSet.TransactionRefs and pendingState. */
  datatype Work = Work(applied: seq<TxId>, refs: seq<Ref>, pending: AppState)

  datatype Applier = Selecting(work: Work) | LeftLoop(work: Work) | Finishing(work: Work) | Returned(outcome: Outcome)

  /** What travels on the error channel. */
  datatype Signal = NoError | CanceledError | OtherError

  /** The heap, and three histories: everything ever put into it, what was unresolvable or turned
      down by the application, and what an Enqueue lost whose error is ignored. */
  datatype Pool = Pool(heap: multiset<TxId>, supply: multiset<TxId>, rejected: multiset<TxId>, dropped: multiset<TxId>)

  /** `budget` is CollectTransactions' `max`, counting down; `cancelled` says that collectCtx is
      done, `stopped` that ctx is. */
  datatype Pipe = Pipe(
    pool: Pool,
    collector: Collector,
    budget: int,
    resolver: Resolver,
    applier: Applier,
    errs: seq<Signal>,
    cancelled: bool,
    stopped: bool)

  function Start(opts: Opts, app: App, heap: multiset<TxId>): Pipe {
    Pipe(Pool(heap, heap, multiset{}, multiset{}), Taking, opts.max, Unstarted, Selecting(Work([], [], app.parent)),
      [], false, false)
  }

  function Put(m: multiset<TxId>, tx: TxId): multiset<TxId> {
    m[tx := m[tx] + 1]
  }

  /** An Enqueue whose error is ignored; it fails for the ids in `unlucky`. */
  function Requeue(p: Pool, tx: TxId, unlucky: set<TxId>): Pool {
    if tx in unlucky then p.(dropped := Put(p.dropped, tx)) else p.(heap := Put(p.heap, tx))
  }

  /** The loop requeueTxs. */
  function RequeueAll(p: Pool, txs: seq<TxId>, unlucky: set<TxId>): Pool
    decreases |txs|
  {
    if txs == [] then p else Requeue(RequeueAll(p, txs[..|txs| - 1], unlucky), txs[|txs| - 1], unlucky)
  }

  function Reject(p: Pool, tx: TxId): Pool {
    p.(rejected := Put(p.rejected, tx))
  }

  /** Returning cancels collectCtx. */
  function Return(p: Pipe, outcome: Outcome): Pipe {
    p.(applier := Returned(outcome), cancelled := true)
  }

  function RequeueAndReturn(p: Pipe, applied: seq<TxId>, outcome: Outcome, unlucky: set<TxId>): Pipe {
    Return(p.(pool := RequeueAll(p.pool, applied, unlucky)), outcome)
  }

  predicate ExitTest(opts: Opts, count: nat, waitElapsed: bool) {
    var hasMin := if opts.min == 0 then count != 0 else count > opts.min;
    hasMin && (count >= opts.max || waitElapsed)
  }

  datatype EnvEvent = Submit(tx: TxId) | Cancel | Stop

  datatype CollectorEvent =
    | Take(tx: TxId) | FindEmpty | TakeFails | SeeCancelled(signal: Signal, unlucky: set<TxId>) | HandOff

  datatype ResolverEvent =
    | SeeEnd | LookupOk | LookupCancelled(unlucky: set<TxId>) | LookupFails
    | CheckOk | CheckRejects | CheckFails(signal: Signal, unlucky: set<TxId>) | ForwardCancelled(unlucky: set<TxId>)

  datatype ApplierEvent =
    | StateFound | StateFails
    | ApplyNext(sysErr: bool, waitElapsed: bool, unlucky: set<TxId>)
    | ReceiveErr(unlucky: set<TxId>) | SeeStop(unlucky: set<TxId>) | SeeClosed | AfterLoop
    | Finish(stored: bool, unlucky: set<TxId>)

  datatype Event =
    | World(world: EnvEvent)
    | Collect(collect: CollectorEvent)
    | Resolve(resolve: ResolverEvent)
    | Apply(apply: ApplierEvent)

  function EnvStep(p: Pipe, e: EnvEvent): Pipe {
    match e
    case Submit(tx) => p.(pool := p.pool.(heap := Put(p.pool.heap, tx), supply := Put(p.pool.supply, tx)))
    case Cancel => p.(cancelled := true)
    case Stop => p.(stopped := true, cancelled := true)
  }

  /** The hand-over of a transaction from collector to resolver, with the collector's countdown. */
  function HandedOff(p: Pipe, tx: TxId): Pipe {
    var q := p.(resolver := Looking(tx), collector := Taking);
    if p.budget == 0 then q
    else if p.budget == 1 then q.(budget := 0, collector := CollectorDone, errs := p.errs + [NoError])
    else q.(budget := p.budget - 1)
  }

  function CollectorStep(p: Pipe, e: CollectorEvent): Pipe {
    match e
    case Take(tx) =>
      if p.collector == Taking && tx in p.pool.heap
      then p.(collector := Offering(tx), pool := p.pool.(heap := p.pool.heap[tx := p.pool.heap[tx] - 1])) else p
    case FindEmpty =>
      if p.collector == Taking && p.pool.heap == multiset{} then p.(collector := Idle) else p
    case TakeFails =>
      if p.collector == Taking then p.(collector := CollectorDone, errs := p.errs + [OtherError]) else p
    case SeeCancelled(signal, unlucky) =>
      if !p.cancelled || signal == NoError then p
      else if p.collector.Offering? then
        p.(pool := Requeue(p.pool, p.collector.tx, unlucky), collector := CollectorDone, errs := p.errs + [signal])
      else if p.collector == Idle then p.(collector := CollectorDone, errs := p.errs + [signal])
      else p
    case HandOff =>
      if p.collector.Offering? && p.resolver == Receiving then HandedOff(p, p.collector.tx) else p
  }

  function ResolverStep(p: Pipe, e: ResolverEvent): Pipe {
    match e
    case SeeEnd =>
      if p.resolver == Receiving && (p.collector == CollectorDone || p.cancelled)
        then p.(resolver := ResolverDone) else p
    case LookupOk =>
      if p.resolver.Looking? then p.(resolver := Checking(p.resolver.tx)) else p
    case LookupCancelled(unlucky) =>
      if p.resolver.Looking? then p.(pool := Requeue(p.pool, p.resolver.tx, unlucky), resolver := Receiving) else p
    case LookupFails =>
      if p.resolver.Looking? then p.(pool := Reject(p.pool, p.resolver.tx), resolver := Receiving) else p
    case CheckOk =>
      if p.resolver.Checking? then p.(resolver := Forwarding(p.resolver.tx)) else p
    case CheckRejects =>
      if p.resolver.Checking? then p.(pool := Reject(p.pool, p.resolver.tx), resolver := ResolverDone) else p
    case CheckFails(signal, unlucky) =>
      if p.resolver.Checking? && signal != NoError then
        p.(pool := Requeue(p.pool, p.resolver.tx, unlucky), errs := p.errs + [signal], cancelled := true,
          resolver := ResolverDone)
      else p
    case ForwardCancelled(unlucky) =>
      if p.cancelled && p.resolver.Forwarding?
      then p.(pool := Requeue(p.pool, p.resolver.tx, unlucky), resolver := ResolverDone) else p
  }

  /** One transaction received by the loop and applied. */
  function Applying(opts: Opts, app: App, p: Pipe, w: Work, tx: TxId, sysErr: bool, waitElapsed: bool,
      unlucky: set<TxId>): Pipe {
    if sysErr then RequeueAndReturn(p, w.applied + [tx], Failed, unlucky)
    else match app.apply(w.pending, tx)
      case Declined(state) => p.(applier := Selecting(w.(pending := state)), pool := Reject(p.pool, tx))
      case Took(state) =>
        var v := Work(w.applied + [tx], w.refs + [app.refOf(tx)], state);
        p.(applier := if ExitTest(opts, |v.applied|, waitElapsed) then LeftLoop(v) else Selecting(v))
  }

  /** A value from the error channel inside the loop. */
  function Received(p: Pipe, w: Work, signal: Signal, unlucky: set<TxId>): Pipe {
    if signal == NoError then p
    else if w.applied == [] && signal == CanceledError then Return(p, Abstained)
    else RequeueAndReturn(p, w.applied, Failed, unlucky)
  }

  /** The check of the error channel after the loop: an error here returns without requeueing. */
  function CheckedErr(p: Pipe, w: Work): Pipe {
    if p.errs == [] then p.(applier := Finishing(w))
    else
      var q := p.(errs := p.errs[1..]);
      if p.errs[0] == NoError then q.(applier := Finishing(w)) else Return(q, FailedAfterLoop(w.applied))
  }

  function Finished(opts: Opts, p: Pipe, w: Work, stored: bool, unlucky: set<TxId>): Pipe {
    if |w.refs| < opts.min then RequeueAndReturn(p, w.applied, Abstained, unlucky)
    else if !stored then RequeueAndReturn(p, w.applied, Failed, unlucky)
    else Return(p, Proposed(w.pending, w.applied, w.refs))
  }

  function ApplierStep(opts: Opts, app: App, p: Pipe, e: ApplierEvent): Pipe {
    match e
    case StateFound =>
      if p.applier.Selecting? && p.resolver == Unstarted then p.(resolver := Receiving) else p
    case StateFails =>
      if p.applier.Selecting? && p.resolver == Unstarted then Return(p, Failed) else p
    case ApplyNext(sysErr, waitElapsed, unlucky) =>
      if p.applier.Selecting? && p.resolver.Forwarding?
      then Applying(opts, app, p.(resolver := Receiving), p.applier.work, p.resolver.tx, sysErr, waitElapsed, unlucky)
        else p
    case ReceiveErr(unlucky) =>
      if p.applier.Selecting? && p.resolver != Unstarted && p.errs != []
        then Received(p.(errs := p.errs[1..]), p.applier.work, p.errs[0], unlucky) else p
    case SeeStop(unlucky) =>
      if p.applier.Selecting? && p.resolver != Unstarted && p.stopped
        then RequeueAndReturn(p, p.applier.work.applied, Failed, unlucky) else p
    case SeeClosed =>
      if p.applier.Selecting? && p.resolver == ResolverDone then p.(applier := LeftLoop(p.applier.work)) else p
    case AfterLoop =>
      if p.applier.LeftLoop? then CheckedErr(p, p.applier.work) else p
    case Finish(stored, unlucky) =>
      if p.applier.Finishing? then Finished(opts, p, p.applier.work, stored, unlucky) else p
  }

  function Step(opts: Opts, app: App, p: Pipe, e: Event): Pipe {
    match e
    case World(f) => EnvStep(p, f)
    case Collect(f) => CollectorStep(p, f)
    case Resolve(f) => ResolverStep(p, f)
    case Apply(f) => ApplierStep(opts, app, p, f)
  }

  function Run(opts: Opts, app: App, p: Pipe, es: seq<Event>): Pipe
    decreases |es|
  {
    if es == [] then p else Step(opts, app, Run(opts, app, p, es[..|es| - 1]), es[|es| - 1])
  }

  // ---------------------------------------------------------------------------------------
  // Conservation

  ghost function One(tx: TxId, t: TxId): nat {
    if tx == t then 1 else 0
  }

  ghost function Count(txs: seq<TxId>, t: TxId): nat
    decreases |txs|
  {
    if txs == [] then 0 else Count(txs[..|txs| - 1], t) + One(txs[|txs| - 1], t)
  }

  ghost function InCollector(c: Collector, t: TxId): nat {
    if c.Offering? then One(c.tx, t) else 0
  }

  ghost function InResolver(r: Resolver, t: TxId): nat {
    if r.Unstarted? || r.Receiving? || r.ResolverDone? then 0 else One(r.tx, t)
  }

  /** The applied list while the loop runs; after the return, what the outcome kept. */
  ghost function Kept(a: Applier): seq<TxId> {
    if !a.Returned? then a.work.applied
    else match a.outcome
      case Proposed(_, txs, _) => txs
      case FailedAfterLoop(lost) => lost
      case _ => []
  }

  ghost function InPool(p: Pool, t: TxId): nat {
    p.heap[t] + p.rejected[t] + p.dropped[t]
  }

  /** Every copy of `t` ever put into the heap is in exactly one place. */
  ghost predicate Balanced(p: Pipe, t: TxId) {
    p.pool.supply[t] == InPool(p.pool, t) + InCollector(p.collector, t) + InResolver(p.resolver,
      t) + Count(Kept(p.applier), t)
  }

  lemma {:induction false} RequeueCount(p: Pool, txs: seq<TxId>, unlucky: set<TxId>, t: TxId)
    ensures var q := RequeueAll(p, txs, unlucky); q.supply == p.supply && InPool(q, t) == InPool(p, t) + Count(txs, t)
    decreases |txs|
  {
    if txs != [] { RequeueCount(p, txs[..|txs| - 1], unlucky, t); }
  }

  lemma {:induction false} CountIsMultiset(txs: seq<TxId>, t: TxId)
    ensures Count(txs, t) == multiset(txs)[t]
    decreases |txs|
  {
    if txs != [] {
      CountIsMultiset(txs[..|txs| - 1], t);
      assert txs == txs[..|txs| - 1] + [txs[|txs| - 1]];
    }
  }

  lemma EnvBalanced(p: Pipe, e: EnvEvent, t: TxId)
    requires Balanced(p, t)
    ensures Balanced(EnvStep(p, e), t)
  {
  }

  lemma CollectorBalanced(p: Pipe, e: CollectorEvent, t: TxId)
    requires Balanced(p, t)
    ensures Balanced(CollectorStep(p, e), t)
  {
  }

  lemma ResolverBalanced(p: Pipe, e: ResolverEvent, t: TxId)
    requires Balanced(p, t)
    ensures Balanced(ResolverStep(p, e), t)
  {
  }

  lemma CountAppend(txs: seq<TxId>, tx: TxId, t: TxId)
    ensures Count(txs + [tx], t) == Count(txs, t) + One(tx, t)
  {
  }

  /** `txs` are in the apply loop's hands. */
  ghost predicate Holding(p: Pipe, txs: nat, t: TxId) {
    p.pool.supply[t] == InPool(p.pool, t) + InCollector(p.collector, t) + InResolver(p.resolver, t) + txs
  }

  lemma RequeueBalanced(p: Pipe, txs: seq<TxId>, outcome: Outcome, unlucky: set<TxId>, t: TxId)
    requires Holding(p, Count(txs, t), t) && (outcome == Failed || outcome == Abstained)
    ensures Balanced(RequeueAndReturn(p, txs, outcome, unlucky), t)
  {
    RequeueCount(p.pool, txs, unlucky, t);
    assert Count([], t) == 0;
  }

  lemma WorkingBalanced(p: Pipe, w: Work, inLoop: bool, t: TxId)
    requires Holding(p, Count(w.applied, t), t)
    ensures Balanced(p.(applier := if inLoop then Selecting(w) else LeftLoop(w)), t)
  {
  }

  lemma ApplyingBalanced(opts: Opts, app: App, p: Pipe, w: Work, tx: TxId, sysErr: bool, waitElapsed: bool,
      unlucky: set<TxId>, t: TxId)
    requires p.applier == Selecting(w) && Holding(p, Count(w.applied, t) + One(tx, t), t)
    ensures Balanced(Applying(opts, app, p, w, tx, sysErr, waitElapsed, unlucky), t)
  {
    CountAppend(w.applied, tx, t);
    if sysErr {
      RequeueBalanced(p, w.applied + [tx], Failed, unlucky, t);
    } else {
      match app.apply(w.pending, tx)
      case Declined(state) => WorkingBalanced(p.(pool := Reject(p.pool, tx)), w.(pending := state), true, t);
      case Took(state) =>
        var v := Work(w.applied + [tx], w.refs + [app.refOf(tx)], state);
        WorkingBalanced(p, v, !ExitTest(opts, |v.applied|, waitElapsed), t);
    }
  }

  lemma FinishedBalanced(opts: Opts, p: Pipe, w: Work, stored: bool, unlucky: set<TxId>, t: TxId)
    requires Holding(p, Count(w.applied, t), t)
    ensures Balanced(Finished(opts, p, w, stored, unlucky), t)
  {
    if |w.refs| < opts.min {
      RequeueBalanced(p, w.applied, Abstained, unlucky, t);
    } else if !stored {
      RequeueBalanced(p, w.applied, Failed, unlucky, t);
    }
  }

  lemma ReceivedBalanced(p: Pipe, w: Work, signal: Signal, unlucky: set<TxId>, t: TxId)
    requires p.applier == Selecting(w) && Holding(p, Count(w.applied, t), t)
    ensures Balanced(Received(p, w, signal, unlucky), t)
  {
    RequeueBalanced(p, w.applied, Failed, unlucky, t);
  }

  /** Nothing is applied before the resolver starts. */
  ghost predicate NothingYet(p: Pipe) {
    p.resolver == Unstarted && !p.applier.Returned? ==> p.applier.work.applied == []
  }

  lemma StepNothingYet(opts: Opts, app: App, p: Pipe, e: Event)
    requires NothingYet(p)
    ensures NothingYet(Step(opts, app, p, e))
  {
  }

  lemma {:induction false} RunNothingYet(opts: Opts, app: App, heap: multiset<TxId>, es: seq<Event>)
    ensures NothingYet(Run(opts, app, Start(opts, app, heap), es))
    decreases |es|
  {
    if es != [] {
      RunNothingYet(opts, app, heap, es[..|es| - 1]);
      StepNothingYet(opts, app, Run(opts, app, Start(opts, app, heap), es[..|es| - 1]), es[|es| - 1]);
    }
  }

  lemma ApplierBalanced(opts: Opts, app: App, p: Pipe, e: ApplierEvent, t: TxId)
    requires Balanced(p, t) && NothingYet(p) && !p.applier.Returned?
    ensures Balanced(ApplierStep(opts, app, p, e), t)
  {
    var w := p.applier.work;
    match e
    case StateFound =>
    case StateFails =>
    case ApplyNext(sysErr, waitElapsed, unlucky) =>
      if p.applier.Selecting? && p.resolver.Forwarding? {
        ApplyingBalanced(opts, app, p.(resolver := Receiving), w, p.resolver.tx, sysErr, waitElapsed, unlucky, t);
      }
    case ReceiveErr(unlucky) =>
      if p.applier.Selecting? && p.errs != [] { ReceivedBalanced(p.(errs := p.errs[1..]), w, p.errs[0], unlucky, t); }
    case SeeStop(unlucky) =>
      if p.applier.Selecting? { RequeueBalanced(p, w.applied, Failed, unlucky, t); }
    case Finish(stored, unlucky) =>
      if p.applier.Finishing? { FinishedBalanced(opts, p, w, stored, unlucky, t); }
    case SeeClosed =>
    case AfterLoop =>
  }

  /** Mempool conservation, for every interleaving and every transaction. */
  lemma {:induction false} RunBalanced(opts: Opts, app: App, heap: multiset<TxId>, es: seq<Event>, t: TxId)
    ensures Balanced(Run(opts, app, Start(opts, app, heap), es), t)
    decreases |es|
  {
    if es != [] {
      RunBalanced(opts, app, heap, es[..|es| - 1], t);
      RunNothingYet(opts, app, heap, es[..|es| - 1]);
      var p := Run(opts, app, Start(opts, app, heap), es[..|es| - 1]);
      match es[|es| - 1]
      case World(f) => EnvBalanced(p, f, t);
      case Collect(f) => CollectorBalanced(p, f, t);
      case Resolve(f) => ResolverBalanced(p, f, t);
      case Apply(f) => if !p.applier.Returned? { ApplierBalanced(opts, app, p, f, t); }
    }
  }

  ghost predicate Quiet(p: Pipe) {
    p.applier.Returned? && p.collector == CollectorDone && (p.resolver == ResolverDone || p.resolver == Unstarted)
  }

  // ---------------------------------------------------------------------------------------
  // When transactions are lost

  /** The guard of the one return that requeues nothing: the loop is left with transactions applied
      and an error already waits on the channel. */
  ghost predicate LosesAt(p: Pipe, e: Event) {
    && e == Apply(AfterLoop) && p.applier.LeftLoop? && p.applier.work.applied != []
    && p.errs != [] && p.errs[0] != NoError
  }

  ghost predicate Loses(opts: Opts, app: App, p: Pipe, es: seq<Event>) {
    exists k: nat :: LosesWhen(opts, app, p, es, k)
  }

  ghost predicate LosesWhen(opts: Opts, app: App, p: Pipe, es: seq<Event>, k: nat) {
    k < |es| && LosesAt(Run(opts, app, p, es[..k]), es[k])
  }

  ghost predicate ReturnedLosing(a: Applier) {
    a.Returned? && a.outcome.FailedAfterLoop? && a.outcome.lost != []
  }

  lemma LosingStep(opts: Opts, app: App, p: Pipe, e: Event)
    ensures ReturnedLosing(Step(opts, app, p, e).applier) <==> ReturnedLosing(p.applier) || LosesAt(p, e)
  {
    if e.Apply? && p.applier.Returned? { assert ApplierStep(opts, app, p, e.apply) == p; }
    if !e.Apply? { OtherStepsKeepApplier(opts, app, p, e); }
  }

  lemma {:induction false} LosingExact(opts: Opts, app: App, p: Pipe, es: seq<Event>)
    requires !ReturnedLosing(p.applier)
    ensures ReturnedLosing(Run(opts, app, p, es).applier) <==> Loses(opts, app, p, es)
    decreases |es|
  {
    if es != [] {
      var n := |es| - 1;
      var fs := es[..n];
      LosingExact(opts, app, p, fs);
      LosingStep(opts, app, Run(opts, app, p, fs), es[n]);
      LosesNext(opts, app, p, es);
    }
  }

  lemma LosesNext(opts: Opts, app: App, p: Pipe, es: seq<Event>)
    requires es != []
    ensures var fs := es[..|es| - 1];
            Loses(opts, app, p, es) <==> Loses(opts, app, p, fs) || LosesAt(Run(opts, app, p, fs), es[|es| - 1])
  {
    var n := |es| - 1;
    var fs := es[..n];
    forall k | 0 <= k < n ensures LosesWhen(opts, app, p, es, k) <==> LosesWhen(opts, app, p, fs, k) {
      assert es[k] == fs[k] && es[..k] == fs[..k];
    }
    assert LosesWhen(opts, app, p, es, n) <==> LosesAt(Run(opts, app, p, fs), es[n]);
  }

  /** The transactions of the proposal, if there is one. */
  ghost function InBlock(a: Applier): seq<TxId> {
    if a.Returned? && a.outcome.Proposed? then a.outcome.txs else []
  }

  /** Once ProposeBlock returned and its goroutines ended, each transaction is in the block, back in
      the heap, or rejected, exactly if no requeue failed and the run never took the error return
      after the loop with transactions applied. */
  lemma {:induction false} FinalAccounting(opts: Opts, app: App, heap: multiset<TxId>, es: seq<Event>)
    requires Quiet(Run(opts, app, Start(opts, app, heap), es))
    ensures var p := Run(opts, app, Start(opts, app, heap), es);
            && p.pool.supply == p.pool.heap + p.pool.rejected + p.pool.dropped + multiset(Kept(p.applier))
            && (p.pool.supply == p.pool.heap + p.pool.rejected + multiset(InBlock(p.applier))
                <==> p.pool.dropped == multiset{} && !Loses(opts, app, Start(opts, app, heap), es))
  {
    var p := Run(opts, app, Start(opts, app, heap), es);
    var found := p.pool.heap + p.pool.rejected + p.pool.dropped + multiset(Kept(p.applier));
    forall t ensures p.pool.supply[t] == found[t] {
      RunBalanced(opts, app, heap, es, t);
      CountIsMultiset(Kept(p.applier), t);
    }
    assert p.pool.supply == found;
    LosingExact(opts, app, Start(opts, app, heap), es);
    LostIsMissing(p.pool.heap + p.pool.rejected, p.pool.dropped, Kept(p.applier), InBlock(p.applier));
  }

  lemma LostIsMissing(rest: multiset<TxId>, dropped: multiset<TxId>, kept: seq<TxId>, inBlock: seq<TxId>)
    requires inBlock == [] || inBlock == kept
    ensures rest + dropped + multiset(kept) == rest + multiset(inBlock) <==> dropped == multiset{} && inBlock == kept
  {
    if inBlock == kept {
      if dropped != multiset{} {
        assert |rest + dropped + multiset(kept)| > |rest + multiset(inBlock)|;
      } else {
        assert rest + dropped + multiset(kept) == rest + multiset(inBlock);
      }
    } else {
      assert |multiset(kept)| > 0;
      assert |rest + dropped + multiset(kept)| > |rest + multiset(inBlock)|;
    }
  }

  /** The events that can put an error on the channel before the return. */
  ghost predicate Troubled(e: Event) {
    match e
    case World(f) => f.Cancel? || f.Stop?
    case Collect(f) => f.TakeFails?
    case Resolve(f) => f.CheckFails?
    case Apply(f) => false
  }

  ghost predicate Untroubled(p: Pipe) {
    p.applier.Returned? || (!p.cancelled && forall i :: 0 <= i < |p.errs| ==> p.errs[i] == NoError)
  }

  lemma UntroubledStep(opts: Opts, app: App, p: Pipe, e: Event)
    requires Untroubled(p) && !Troubled(e)
    ensures Untroubled(Step(opts, app, p, e)) && !LosesAt(p, e)
  {
    match e
    case World(f) =>
    case Collect(f) => if p.applier.Returned? { OtherStepsKeepApplier(opts, app, p, e); }
    case Resolve(f) => if p.applier.Returned? { OtherStepsKeepApplier(opts, app, p, e); }
    case Apply(f) =>
  }

  /** Nothing is lost in a run without deadline, cancellation and failing lookup or check. */
  lemma {:induction false} UntroubledLosesNothing(opts: Opts, app: App, heap: multiset<TxId>, es: seq<Event>)
    requires forall i :: 0 <= i < |es| ==> !Troubled(es[i])
    ensures Untroubled(Run(opts, app, Start(opts, app, heap), es)) && !Loses(opts, app, Start(opts, app, heap), es)
    decreases |es|
  {
    if es != [] {
      var p := Start(opts, app, heap);
      UntroubledLosesNothing(opts, app, heap, es[..|es| - 1]);
      UntroubledStep(opts, app, Run(opts, app, p, es[..|es| - 1]), es[|es| - 1]);
      LosesNext(opts, app, p, es);
    }
  }

  // ---------------------------------------------------------------------------------------
  // Replay

  /** The state after applying `txs` in order to the parent state, if none is declined. */
  ghost function Replay(app: App, txs: seq<TxId>): Option<AppState>
    decreases |txs|
  {
    if txs == [] then Some(app.parent)
    else match Replay(app, txs[..|txs| - 1])
      case None => None
      case Some(s) =>
        match app.apply(s, txs[|txs| - 1])
        case Took(t) => Some(t)
        case Declined(_) => None
  }

  ghost predicate DecliningKeepsState(app: App) {
    forall s, tx :: app.apply(s, tx).Declined? ==> app.apply(s, tx).state == s
  }

  /** The references are those of the transactions, one for one, and the state is their replay. */
  ghost predicate Replays(app: App, w: Work) {
    && |w.refs| == |w.applied| && (forall i :: 0 <= i < |w.applied| ==> w.refs[i] == app.refOf(w.applied[i]))
    && Replay(app, w.applied) == Some(w.pending)
  }

  ghost predicate Replayable(app: App, a: Applier) {
    match a
    case Returned(Proposed(state, txs, refs)) => Replays(app, Work(txs, refs, state))
    case Returned(_) => true
    case Selecting(w) => Replays(app, w)
    case LeftLoop(w) => Replays(app, w)
    case Finishing(w) => Replays(app, w)
  }

  lemma ApplierReplayable(opts: Opts, app: App, p: Pipe, e: ApplierEvent)
    requires Replayable(app, p.applier) && DecliningKeepsState(app)
    ensures Replayable(app, ApplierStep(opts, app, p, e).applier)
  {
    if e.ApplyNext? && p.applier.Selecting? && p.resolver.Forwarding? {
      var txs := p.applier.work.applied + [p.resolver.tx];
      assert txs[..|txs| - 1] == p.applier.work.applied;
    }
  }

  /** Only the apply loop touches its own variables. */
  lemma OtherStepsKeepApplier(opts: Opts, app: App, p: Pipe, e: Event)
    requires !e.Apply?
    ensures Step(opts, app, p, e).applier == p.applier
  {
  }

  /** Replay: a returned proposal's state is the parent's state with the recorded transactions
      applied in order, and the recorded references are theirs, one for one. */
  lemma {:induction false} ProposalReplays(opts: Opts, app: App, heap: multiset<TxId>, es: seq<Event>)
    requires DecliningKeepsState(app)
    ensures Replayable(app, Run(opts, app, Start(opts, app, heap), es).applier)
    decreases |es|
  {
    if es != [] {
      ProposalReplays(opts, app, heap, es[..|es| - 1]);
      var p, e := Run(opts, app, Start(opts, app, heap), es[..|es| - 1]), es[|es| - 1];
      if e.Apply? { ApplierReplayable(opts, app, p, e.apply); } else { OtherStepsKeepApplier(opts, app, p, e); }
    }
  }

  // ---------------------------------------------------------------------------------------
  // When the loop ends

  /** Enough transactions: any if there is no minimum, else more than the minimum. */
  ghost predicate MoreThanMinimum(opts: Opts, count: nat) {
    if opts.min == 0 then count > 0 else count > opts.min
  }

  /** After a transaction that the application takes, the loop is left exactly if more than the minimum are
      applied, and either the maximum is reached or the wait has elapsed; either way the transaction is
      applied, recorded and no longer in the resolver's hands. */
  lemma LoopExit(opts: Opts, app: App, p: Pipe, w: Work, tx: TxId, state: AppState, waitElapsed: bool,
      unlucky: set<TxId>)
    requires p.applier == Selecting(w) && p.resolver == Forwarding(tx) && app.apply(w.pending, tx) == Took(state)
    ensures var v := Work(w.applied + [tx], w.refs + [app.refOf(tx)], state);
            var leaves := MoreThanMinimum(opts, |w.applied| + 1) && (|w.applied| + 1 >= opts.max || waitElapsed);
            Step(opts, app, p, Apply(ApplyNext(false, waitElapsed, unlucky))) ==
            p.(resolver := Receiving, applier := if leaves then LeftLoop(v) else Selecting(v))
  {
  }

  // ---------------------------------------------------------------------------------------
  // Block size

  ghost function InFlight(r: Resolver): nat {
    if r.Unstarted? || r.Receiving? || r.ResolverDone? then 0 else 1
  }

  /** With a positive maximum, the countdown leaves room for what is already past the collector. */
  ghost predicate CountedDown(opts: Opts, p: Pipe) {
    && p.budget >= 0 && (p.collector != CollectorDone ==> p.budget > 0)
    && (!p.applier.Returned? ==> |p.applier.work.applied| + InFlight(p.resolver) + p.budget <= opts.max)
  }

  ghost predicate Sized(opts: Opts, a: Applier) {
    match a
    case Selecting(w) => |w.refs| == |w.applied| && (opts.max <= 0 ==> |w.applied| <= opts.min)
    case LeftLoop(w) => |w.refs| == |w.applied| && (opts.max <= 0 ==> |w.applied| <= opts.min + 1)
    case Finishing(w) => |w.refs| == |w.applied| && (opts.max <= 0 ==> |w.applied| <= opts.min + 1)
    case Returned(Proposed(_, txs, _)) =>
      opts.min <= |txs| && (if opts.max > 0 then |txs| <= opts.max else |txs| <= opts.min + 1)
    case Returned(_) => true
  }

  lemma CollectorCountedDown(opts: Opts, p: Pipe, e: CollectorEvent)
    requires CountedDown(opts, p)
    ensures CountedDown(opts, CollectorStep(p, e))
  {
  }

  lemma ApplierCountedDown(opts: Opts, app: App, p: Pipe, e: ApplierEvent)
    requires CountedDown(opts, p)
    ensures CountedDown(opts, ApplierStep(opts, app, p, e))
  {
  }

  lemma StepCountedDown(opts: Opts, app: App, p: Pipe, e: Event)
    requires CountedDown(opts, p)
    ensures CountedDown(opts, Step(opts, app, p, e))
  {
    match e
    case World(f) =>
    case Collect(f) => CollectorCountedDown(opts, p, f);
    case Resolve(f) =>
    case Apply(f) => ApplierCountedDown(opts, app, p, f);
  }

  lemma ApplierSized(opts: Opts, app: App, p: Pipe, e: ApplierEvent)
    requires Sized(opts, p.applier) && opts.min >= 0 && (opts.max > 0 ==> CountedDown(opts, p))
    ensures Sized(opts, ApplierStep(opts, app, p, e).applier)
  {
  }

  lemma {:induction false} RunSized(opts: Opts, app: App, heap: multiset<TxId>, es: seq<Event>)
    requires opts.min >= 0
    ensures Sized(opts, Run(opts, app, Start(opts, app, heap), es).applier)
    ensures opts.max > 0 ==> CountedDown(opts, Run(opts, app, Start(opts, app, heap), es))
    decreases |es|
  {
    if es != [] {
      RunSized(opts, app, heap, es[..|es| - 1]);
      var p, e := Run(opts, app, Start(opts, app, heap), es[..|es| - 1]), es[|es| - 1];
      if opts.max > 0 { StepCountedDown(opts, app, p, e); }
      if e.Apply? { ApplierSized(opts, app, p, e.apply); } else { OtherStepsKeepApplier(opts, app, p, e); }
    }
  }

  /** Block size bounds: at least the minimum, at most a positive maximum, and at most one more
      than the minimum when there is no maximum. */
  lemma ProposalSize(opts: Opts, app: App, heap: multiset<TxId>, es: seq<Event>, state: AppState, txs: seq<TxId>,
      refs: seq<Ref>)
    requires opts.min >= 0
    requires Run(opts, app, Start(opts, app, heap), es).applier == Returned(Proposed(state, txs, refs))
    ensures opts.min <= |txs|
    ensures opts.max > 0 ==> |txs| <= opts.max
    ensures opts.max <= 0 ==> |txs| <= opts.min + 1
  {
    RunSized(opts, app, heap, es);
  }

  // ---------------------------------------------------------------------------------------
  // An idle collector never wakes

  ghost predicate NeverTakes(c: Collector) {
    c == Idle || c == CollectorDone
  }

  lemma IdleStep(opts: Opts, app: App, p: Pipe, e: Event)
    requires NeverTakes(p.collector)
    ensures NeverTakes(Step(opts, app, p, e).collector)
  {
  }

  /** Enqueue does not notify: a collector that found the heap empty stays idle until it is
      cancelled, whatever is submitted meanwhile. */
  lemma {:induction false} IdleForGood(opts: Opts, app: App, p: Pipe, es: seq<Event>)
    requires NeverTakes(p.collector)
    ensures NeverTakes(Run(opts, app, p, es).collector)
    decreases |es|
  {
    if es != [] {
      IdleForGood(opts, app, p, es[..|es| - 1]);
      IdleStep(opts, app, Run(opts, app, p, es[..|es| - 1]), es[|es| - 1]);
    }
  }

  // ---------------------------------------------------------------------------------------
  // The return that loses transactions

  ghost predicate Reaches(opts: Opts, app: App, p: Pipe, q: Pipe) {
    exists es :: Run(opts, app, p, es) == q
  }

  lemma ReachStart(opts: Opts, app: App, p: Pipe)
    ensures Reaches(opts, app, p, p)
  {
    assert Run(opts, app, p, []) == p;
  }

  lemma ReachNext(opts: Opts, app: App, p: Pipe, q: Pipe, e: Event, r: Pipe)
    requires Reaches(opts, app, p, q) && Step(opts, app, q, e) == r
    ensures Reaches(opts, app, p, r)
  {
    var es :| Run(opts, app, p, es) == q;
    assert (es + [e])[..|es|] == es;
    assert Run(opts, app, p, es + [e]) == r;
  }

  /** Transaction 7 has been applied; the loop waits for a second one. */
  function Gathered(app: App, state: AppState): Pipe {
    Pipe(Pool(multiset{}, multiset{7}, multiset{}, multiset{}), Taking, 0, Receiving, Selecting(Work([7],
      [app.refOf(7)], state)), [], false, false)
  }

  /** The deadline has passed and the collector has reported it. */
  function Expired(app: App, state: AppState): Pipe {
    Gathered(app, state).(collector := CollectorDone, errs := [OtherError], cancelled := true)
  }

  lemma Gather(opts: Opts, app: App, state: AppState, p: Pipe)
    requires opts == Opts(1, 0) && app.apply(app.parent, 7) == Took(state) && p == Start(opts, app, multiset{7})
    ensures Reaches(opts, app, p, Gathered(app, state))
  {
    var w := p.applier.work;
    var started := p.(resolver := Receiving);
    var offered := started.(pool := Gathered(app, state).pool, collector := Offering(7));
    var checked := offered.(collector := Taking, resolver := Forwarding(7));
    assert multiset{7}[7 := 0] == multiset{};
    assert w.applied + [7] == [7] && w.refs + [app.refOf(7)] == [app.refOf(7)];
    ReachStart(opts, app, p);
    ReachNext(opts, app, p, p, Apply(StateFound), started);
    ReachNext(opts, app, p, started, Collect(Take(7)), offered);
    ReachNext(opts, app, p, offered, Collect(HandOff), checked.(resolver := Looking(7)));
    ReachNext(opts, app, p, checked.(resolver := Looking(7)), Resolve(LookupOk), checked.(resolver := Checking(7)));
    ReachNext(opts, app, p, checked.(resolver := Checking(7)), Resolve(CheckOk), checked);
    ReachNext(opts, app, p, checked, Apply(ApplyNext(false, false, {})), Gathered(app, state));
  }

  lemma Expire(opts: Opts, app: App, state: AppState, p: Pipe)
    requires Reaches(opts, app, p, Gathered(app, state))
    ensures Reaches(opts, app, p, Expired(app, state))
  {
    var idle := Gathered(app, state).(collector := Idle);
    assert [] + [OtherError] == [OtherError];
    ReachNext(opts, app, p, Gathered(app, state), Collect(FindEmpty), idle);
    ReachNext(opts, app, p, idle, World(Cancel), idle.(cancelled := true));
    ReachNext(opts, app, p, idle.(cancelled := true), Collect(SeeCancelled(OtherError, {})), Expired(app, state));
  }

  lemma Lose(opts: Opts, app: App, state: AppState, p: Pipe)
    requires Reaches(opts, app, p, Expired(app, state))
    ensures Reaches(opts, app, p, Expired(app, state).(resolver := ResolverDone, errs := [],
            applier := Returned(FailedAfterLoop([7]))))
  {
    var ended := Expired(app, state).(resolver := ResolverDone);
    var left := ended.(applier := LeftLoop(ended.applier.work));
    assert [OtherError][1..] == [];
    ReachNext(opts, app, p, Expired(app, state), Resolve(SeeEnd), ended);
    ReachNext(opts, app, p, ended, Apply(SeeClosed), left);
    ReachNext(opts, app, p, left, Apply(AfterLoop), left.(errs := [], applier := Returned(FailedAfterLoop([7]))));
  }

  /** Nothing was dropped by a requeue, yet the only transaction is in neither the block, the heap
      nor the rejected set. */
  ghost predicate LostSeven(p: Pipe) {
    && Quiet(p) && p.applier == Returned(FailedAfterLoop([7]))
    && p.pool == Pool(multiset{}, multiset{7}, multiset{}, multiset{})
  }

  /** The deadline passes with one transaction applied: collector and resolver end, the loop sees
      the closed channel before the error, and the error found after the loop returns. */
  lemma AppliedTransactionLost(app: App, state: AppState)
    requires app.apply(app.parent, 7) == Took(state)
    ensures exists p :: Reaches(Opts(1, 0), app, Start(Opts(1, 0), app, multiset{7}), p) && LostSeven(p)
  {
    var opts := Opts(1, 0);
    var p := Start(opts, app, multiset{7});
    Gather(opts, app, state, p);
    Expire(opts, app, state, p);
    Lose(opts, app, state, p);
    assert LostSeven(Expired(app, state).(resolver := ResolverDone, errs := [],
      applier := Returned(FailedAfterLoop([7]))));
  }

  // ---------------------------------------------------------------------------------------
  // The pipeline does propose

  /** The work after the one transaction. */
  function Single(app: App, state: AppState, tx: TxId): Work {
    Work([tx], [app.refOf(tx)], state)
  }

  lemma SingleApplied(opts: Opts, app: App, state: AppState, tx: TxId, p: Pipe, checked: Pipe)
    requires app.apply(app.parent, tx) == Took(state) && p == Start(opts, app, multiset{tx}) && opts.min == 0
    requires checked == p.(pool := p.pool.(heap := multiset{tx}[tx := 0]), resolver := Forwarding(tx),
                           budget := if opts.max == 0 then 0 else opts.max - 1,
                           collector := if opts.max == 1 then CollectorDone else Taking,
                           errs := if opts.max == 1 then [NoError] else [])
    ensures Reaches(opts, app, p, checked)
    ensures Step(opts, app, checked, Apply(ApplyNext(false, true, {}))) == checked.(resolver := Receiving,
            applier := LeftLoop(Single(app, state, tx)))
  {
    var offered := p.(pool := checked.pool, collector := Offering(tx), resolver := Receiving);
    ReachStart(opts, app, p);
    ReachNext(opts, app, p, p, Apply(StateFound), p.(resolver := Receiving));
    ReachNext(opts, app, p, p.(resolver := Receiving), Collect(Take(tx)), offered);
    ReachNext(opts, app, p, offered, Collect(HandOff), checked.(resolver := Looking(tx)));
    ReachNext(opts, app, p, checked.(resolver := Looking(tx)), Resolve(LookupOk), checked.(resolver := Checking(tx)));
    ReachNext(opts, app, p, checked.(resolver := Checking(tx)), Resolve(CheckOk), checked);
    assert p.applier.work.applied + [tx] == [tx] && p.applier.work.refs + [app.refOf(tx)] == [app.refOf(tx)];
  }

  /** One transaction that the application takes is enough for a proposal when no minimum is set and the
      wait has elapsed, whatever the maximum. */
  lemma OneTransactionProposed(opts: Opts, app: App, state: AppState, tx: TxId, p: Pipe)
    requires app.apply(app.parent, tx) == Took(state) && p == Start(opts, app, multiset{tx})
    requires opts.min == 0
    ensures exists q :: Reaches(opts, app, p, q) && q.applier == Returned(Proposed(state, [tx], [app.refOf(tx)]))
  {
    var w := Single(app, state, tx);
    var checked := p.(pool := p.pool.(heap := multiset{tx}[tx := 0]), resolver := Forwarding(tx),
                      budget := if opts.max == 0 then 0 else opts.max - 1,
                      collector := if opts.max == 1 then CollectorDone else Taking,
                      errs := if opts.max == 1 then [NoError] else []);
    SingleApplied(opts, app, state, tx, p, checked);
    var left := checked.(resolver := Receiving, applier := LeftLoop(w));
    var finishing := left.(applier := Finishing(w), errs := []);
    ReachNext(opts, app, p, checked, Apply(ApplyNext(false, true, {})), left);
    assert [NoError][1..] == [];
    ReachNext(opts, app, p, left, Apply(AfterLoop), finishing);
    ReachNext(opts, app, p, finishing, Apply(Finish(true, {})),
              Return(finishing, Proposed(state, [tx], [app.refOf(tx)])));
  }
}
