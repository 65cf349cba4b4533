/**
 Blocks, headers and the structural part of block validation (block/block.go).

 A storage reference is identified with the digest it carries, and the object store with
 immutable maps from references to objects: what a reference resolves to never changes.
 */
module Blocks {

  type Ref = int
  type PeerId = int
  type Key = int

  datatype Option<+T> = None | Some(value: T)

  datatype Validator = Validator(pubKey: Key, power: nat, operating: bool)

  /** Timing fields are in milliseconds, as in the chain configuration message. */
  datatype ChainConfig = ChainConfig(minProposeAfterBlock: nat, roundLength: nat, validatorSetRef: Ref)

  datatype Header = Header(
    genesisRef: Ref,
    chainConfigRef: Ref,
    nextChainConfigRef: Ref,
    lastBlockRef: Option<Ref>,
    height: nat,
    round: nat,
    timestamp: int,
    proposerId: PeerId,
    stateRef: Ref)

  /** Everything a node looks up but never changes: the object store, the chain's genesis
      references, and the routines of the inca library that live outside the repository. */
  datatype Env = Env(
    blocks: map<Ref, Ref>,                    // block reference to header reference
    headers: map<Ref, Header>,
    configs: map<Ref, ChainConfig>,
    validatorSets: map<Ref, seq<Validator>>,
    genesisRef: Ref,
    initConfigRef: Ref,
    select: (seq<Validator>, Ref, nat, nat) -> Option<Validator>,
    sort: seq<Validator> -> seq<Validator>,
    parseKey: Key -> Option<PeerId>)

  /** GetBlock succeeds: both the block and its header resolve. */
  predicate Known(env: Env, r: Ref) {
    r in env.blocks && env.blocks[r] in env.headers
  }

  function HeaderOf(env: Env, r: Ref): Header
    requires Known(env, r)
  {
    env.headers[env.blocks[r]]
  }

  function Parent(env: Env, r: Ref): Option<Ref> {
    if Known(env, r) then HeaderOf(env, r).lastBlockRef else None
  }

  function Height(env: Env, r: Ref): nat {
    if Known(env, r) then HeaderOf(env, r).height else 0
  }

  /** The proposer expected for a child of `parent`, as a peer identifier. */
  function ExpectedProposer(env: Env, validators: seq<Validator>, parent: Ref, height: nat,
      round: nat): Option<PeerId> {
    match env.select(validators, parent, height, round)
    case None => None
    case Some(v) => env.parseKey(v.pubKey)
  }

  /** The checks ValidateChild makes on a header before it asks the application. Nothing here
      compares the child's LastBlockRef with the parent: the code does not either. */
  predicate HeaderFits(env: Env, parent: Ref, child: Header)
    requires Known(env, parent)
  {
    var p := HeaderOf(env, parent);
    && p.genesisRef == child.genesisRef
    && child.height == p.height + 1
    && p.timestamp <= child.timestamp
    && p.chainConfigRef in env.configs
    && p.chainConfigRef == child.chainConfigRef
    && p.chainConfigRef == child.nextChainConfigRef
    && var setRef := env.configs[p.chainConfigRef].validatorSetRef;
    && setRef in env.validatorSets
    && ExpectedProposer(env, env.validatorSets[setRef], parent, child.height, child.round) == Some(child.proposerId)
  }

  predicate Linked(env: Env, parent: Ref, child: Ref) {
    Known(env, parent) && Known(env, child) && HeaderFits(env, parent, HeaderOf(env, child))
  }

  /** What the rest of a ValidateChild call contributes: the application's block validator
      (a nil validator accepts without marking), or a lookup that fails on the way. */
  datatype Verdict = Rejected | Accepted(markValid: bool)

  datatype Validation = Refused | Passed(markValid: bool)

  function ValidateChild(env: Env, parent: Ref, child: Ref, verdict: Verdict): (v: Validation)
    requires Known(env, parent) && Known(env, child)
    ensures v.Passed? ==> Linked(env, parent, child) && verdict.Accepted?
    ensures v.Refused? ==> !Linked(env, parent, child) || verdict.Rejected?
  {
    if !HeaderFits(env, parent, HeaderOf(env, child)) then Refused
    else match verdict
      case Rejected => Refused
      case Accepted(mark) => Passed(mark)
  }

  // ---------------------------------------------------------------------------------------
  // Walks along validated links

  /** `w` leads from `a` up to `b`, every step a validated parent-child pair. */
  ghost predicate Walk(env: Env, a: Ref, b: Ref, w: seq<Ref>) {
    && |w| > 0 && w[0] == a && w[|w| - 1] == b
    && forall i :: 0 < i < |w| ==> Linked(env, w[i - 1], w[i])
  }

  /** Every block of `w` names the block before it as its parent. */
  ghost predicate Named(env: Env, w: seq<Ref>) {
    forall i :: 0 < i < |w| ==> Parent(env, w[i]) == Some(w[i - 1])
  }

  lemma WalkJoin(env: Env, a: Ref, b: Ref, c: Ref, v: seq<Ref>, w: seq<Ref>)
    requires Walk(env, a, b, v) && Walk(env, b, c, w)
    ensures Walk(env, a, c, v + w[1..])
    ensures Named(env, v) && Named(env, w) ==> Named(env, v + w[1..])
  {
  }

  /** Along a walk the genesis and configuration stay constant, time does not go back, and
      heights count the steps. */
  lemma {:induction false} WalkFacts(env: Env, a: Ref, b: Ref, w: seq<Ref>)
    requires Walk(env, a, b, w) && Known(env, a)
    ensures Known(env, b)
    ensures Height(env, b) == Height(env, a) + |w| - 1
    ensures HeaderOf(env, b).genesisRef == HeaderOf(env, a).genesisRef
    ensures HeaderOf(env, b).chainConfigRef == HeaderOf(env, a).chainConfigRef
    ensures HeaderOf(env, a).timestamp <= HeaderOf(env, b).timestamp
    ensures |w| > 1 ==> HeaderOf(env, b).nextChainConfigRef == HeaderOf(env, a).chainConfigRef
    decreases |w|
  {
    if |w| > 1 {
      var v := w[..|w| - 1];
      assert Linked(env, w[|w| - 2], w[|w| - 1]);
      WalkFacts(env, a, w[|w| - 2], v);
    }
  }

  // ---------------------------------------------------------------------------------------
  // Ancestors through LastBlockRef

  ghost function NthParent(env: Env, r: Ref, n: nat): Option<Ref>
    decreases n
  {
    if n == 0 then Some(r)
    else match Parent(env, r)
      case None => None
      case Some(p) => NthParent(env, p, n - 1)
  }

  ghost predicate IsAncestor(env: Env, a: Ref, b: Ref) {
    exists n: nat :: NthParent(env, b, n) == Some(a)
  }

  lemma {:induction false} NamedWalkAncestor(env: Env, w: seq<Ref>)
    requires |w| > 0 && Named(env, w)
    ensures NthParent(env, w[|w| - 1], |w| - 1) == Some(w[0])
    decreases |w|
  {
    if |w| > 1 {
      var v := w[..|w| - 1];
      assert Parent(env, w[|w| - 1]) == Some(w[|w| - 2]);
      NamedWalkAncestor(env, v);
    }
  }

  /** Honest headers: a block claims the height after that of the block it names. */
  ghost predicate WellHeighted(env: Env) {
    forall r, p :: Known(env, r) && Known(env, p) && Parent(env, r) == Some(p) ==> Height(env, r) == Height(env, p) + 1
  }
}
