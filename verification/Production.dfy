/**
 From the mempool to the header: the state reference that a proposer writes (chain/proposer.go) is that
 of the block state its block proposer stored (utils/transaction/mempool/proposer.go).
 */
module Production {
  import opened Blocks
  import opened ChainModel
  import opened Proposals
  import M = Mempool

  /** The stored BlockState, with the references of its transaction set. */
  datatype BlockState = BlockState(applicationState: Ref, transactions: seq<Ref>)

  type States = map<Ref, BlockState>

  /** The block state that a header refers to. */
  ghost predicate Carries(states: States, h: Header, state: BlockState) {
    h.stateRef in states && states[h.stateRef] == state
  }

  /** The block proposer starts from the application state of the parent. */
  ghost predicate StartsFrom(env: Env, states: States, app: M.App, parent: Ref) {
    Known(env, parent) && exists txs :: Carries(states, HeaderOf(env, parent), BlockState(app.parent, txs))
  }

  /** What the block proposer stored under `ref` after the run, if it returned a proposal. */
  ghost predicate StoresProposal(states: States, p: M.Pipe, ref: Ref) {
    && p.applier.Returned? && p.applier.outcome.Proposed?
    && ref in states && states[ref] == BlockState(p.applier.outcome.state, p.applier.outcome.refs)
  }

  /** The application state `to` is what applying `txs` in order makes of `from`, none being declined. */
  ghost predicate Leads(app: M.App, from: Ref, txs: seq<M.TxId>, to: Ref)
    decreases |txs|
  {
    if txs == [] then from == to
    else match app.apply(from, txs[0])
      case Declined(_) => false
      case Took(state) => Leads(app, state, txs[1..], to)
  }

  lemma {:induction false} LeadsOn(app: M.App, from: Ref, txs: seq<M.TxId>, mid: Ref, tx: M.TxId, to: Ref)
    requires Leads(app, from, txs, mid) && app.apply(mid, tx) == M.Took(to)
    ensures Leads(app, from, txs + [tx], to)
    decreases |txs|
  {
    if txs == [] {
      assert Leads(app, to, [], to);
      assert [tx][1..] == [];
    } else {
      LeadsOn(app, app.apply(from, txs[0]).state, txs[1..], mid, tx, to);
      assert (txs + [tx])[1..] == txs[1..] + [tx];
    }
  }

  lemma {:induction false} ReplayLeads(app: M.App, txs: seq<M.TxId>)
    requires M.Replay(app, txs).Some?
    ensures Leads(app, app.parent, txs, M.Replay(app, txs).value)
    decreases |txs|
  {
    if txs != [] {
      var n := |txs| - 1;
      ReplayLeads(app, txs[..n]);
      LeadsOn(app, app.parent, txs[..n], M.Replay(app, txs[..n]).value, txs[n], M.Replay(app, txs).value);
      assert txs[..n] + [txs[n]] == txs;
    }
  }

  /** The header names the snapshot's block as its parent, carries the snapshot's height and round, and the
      proposer and time of the proposal. */
  ghost predicate Answers(h: Header, snap: Snapshot, self: PeerId, now: int) {
    && h.lastBlockRef == Some(snap.lastBlockRef) && (h.height, h.round) == (snap.height, snap.round)
    && h.proposerId == self && h.timestamp == now
  }

  /** The header continues the application state: after any run of the block proposer that returns a
      proposal, the block state that the header refers to holds what the recorded transactions, applied in
      order, make of the application state that the parent's header refers to, and their references. */
  lemma {:induction false} HeaderCarriesProposal(env: Env, states: States, snap: Snapshot, self: PeerId, now: int,
      ref: Ref, opts: M.Opts, app: M.App, heap: multiset<M.TxId>, es: seq<M.Event>)
    requires StartsFrom(env, states, app, snap.lastBlockRef) && M.DecliningKeepsState(app)
    requires StoresProposal(states, M.Run(opts, app, M.Start(opts, app, heap), es), ref)
    ensures Answers(MakeProposal(env, snap, self, now, ref), snap, self, now)
    ensures exists txs, refs, state ::
              && Carries(states, MakeProposal(env, snap, self, now, ref), BlockState(state, refs))
              && Leads(app, states[HeaderOf(env, snap.lastBlockRef).stateRef].applicationState, txs, state)
              && |refs| == |txs| && forall i :: 0 <= i < |txs| ==> refs[i] == app.refOf(txs[i])
  {
    M.ProposalReplays(opts, app, heap, es);
    var outcome := M.Run(opts, app, M.Start(opts, app, heap), es).applier.outcome;
    ReplayLeads(app, outcome.txs);
    assert Carries(states, MakeProposal(env, snap, self, now, ref), BlockState(outcome.state, outcome.refs));
  }
}
