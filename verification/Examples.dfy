/**
 Small concrete chains for runs that show a property fails or a case occurs: two validators, one
 configuration, and blocks 0, 1, 2, ... given by the parent each names and the height it states.
 */
module Examples {
  import opened Blocks
  import opened ChainModel

  const SELECTED := Validator(5, 10, true)
  const OTHER := Validator(6, 10, true)
  const VALIDATORS := [SELECTED, OTHER]
  const OK := Accepted(false)

  function ExampleHeader(parent: Option<Ref>, height: nat): Header {
    Header(100, 101, 101, parent, height, 0, 0, 5, 0)
  }

  const CONFIG := ChainConfig(500, 3000, 102)

  /** The block is under the one configuration, at time 0. */
  ghost predicate Timed(env: Env, r: Ref) {
    && env.initConfigRef == 101 && env.configs == map[101 := CONFIG] && env.validatorSets == map[102 := VALIDATORS]
    && env.sort(VALIDATORS) == VALIDATORS
    && Known(env, r) && HeaderOf(env, r).chainConfigRef == 101 && HeaderOf(env, r).nextChainConfigRef == 101
    && HeaderOf(env, r).timestamp == 0 && HeaderOf(env, r).genesisRef == 100
  }

  /** Headers are stored under the number of their block. */
  function HeaderRef(r: Ref): Ref {
    r
  }

  /** The proposer selected on a block. */
  type Selection = (seq<Validator>, Ref, nat, nat) -> Option<Validator>

  function ExampleEnv(parents: seq<Option<Ref>>, heights: seq<nat>): Env
    requires |parents| == |heights|
  {
    ExampleEnvWith(parents, heights, 100, (vs: seq<Validator>, r: Ref, h: nat, n: nat) => Some(SELECTED))
  }

  function ExampleEnvWith(parents: seq<Option<Ref>>, heights: seq<nat>, genesisRef: Ref, select: Selection): Env
    requires |parents| == |heights|
  {
    Env(map r | 0 <= r < |parents| :: HeaderRef(r),
        map r | 0 <= r < |parents| :: ExampleHeader(parents[r], heights[r]),
        map[101 := ChainConfig(500, 3000, 102)],
        map[102 := VALIDATORS],
        genesisRef, 101,
        select,
        (vs: seq<Validator>) => vs,
        (k: Key) => Some(k))
  }

  ghost predicate Follows(env: Env, below: nat, p: Ref, height: nat) {
    height == below + 1 && env.select(VALIDATORS, p, height, 0) == Some(SELECTED)
  }

  /** Every two blocks whose heights follow each other pass the structural checks, if the validator is
      selected on the lower one. */
  lemma ExampleFacts(env: Env, parents: seq<Option<Ref>>, heights: seq<nat>)
    requires |parents| == |heights| && env == ExampleEnvWith(parents, heights, env.genesisRef, env.select)
    ensures forall r :: 0 <= r < |parents| ==>
              Known(env, r) && Parent(env, r) == parents[r] && Height(env, r) == heights[r]
    ensures forall p, r ::
              0 <= p < |parents| && 0 <= r < |parents| && Follows(env, heights[p], p, heights[r]) ==> Linked(env, p, r)
    ensures |parents| > 0 && parents[0].None? && heights[0] == 0 && env.genesisRef == 100 ==> Minted(env, 0)
    ensures forall r :: 0 <= r < |parents| ==> Timed(env, r)
  {
  }

  lemma RunThree(env: Env, c: Chain, a: Event, b: Event, d: Event)
    ensures Run(env, c, [a, b, d]) == Step(env, Step(env, Step(env, c, a), b), d)
  {
    assert [a, b, d] == [a] + [b, d] && [b, d] == [b] + [d] && [d] == [d] + [];
    RunFirst(env, c, a, [b, d]);
    RunFirst(env, Step(env, c, a), b, [d]);
    RunFirst(env, Step(env, Step(env, c, a), b), d, []);
  }

  // Reaching a state by some events.

  ghost predicate Reaches(env: Env, c: Chain, d: Chain) {
    exists es :: Run(env, c, es) == d
  }

  lemma ReachStart(env: Env, c: Chain)
    ensures Reaches(env, c, c)
  {
    assert Run(env, c, []) == c;
  }

  lemma ReachNext(env: Env, c: Chain, d: Chain, e: Event, f: Chain)
    requires Reaches(env, c, d) && Step(env, d, e) == f
    ensures Reaches(env, c, f)
  {
    var es :| Run(env, c, es) == d;
    assert (es + [e])[..|es|] == es;
    assert Run(env, c, es + [e]) == f;
  }
}
