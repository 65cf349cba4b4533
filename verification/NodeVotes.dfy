/**
 A node that runs proposer and validator on one key: it sends at most one VOTE for any height
 and round of a run of the chain, and over restarts as long as the chain keeps its branch.
 */
module NodeVotes {
  import opened Blocks
  import opened ChainModel
  import opened ChainInvariant
  import opened HeadTheorems
  import opened Restarts
  import opened ClockTheorems
  import opened Guards

  /** What reaches the two roles: any emitted snapshots, in any order and number, with crashes of
      either role in between. `sent` says whether the vote was sent in the end. */
  datatype Delivery =
    | ToProposer(snap: Snapshot, write: Write, sent: bool)
    | ToValidator(snap: Snapshot, now: int, write: Write, sent: bool)
    | ProposerCrash
    | ValidatorCrash

  datatype Roles = Roles(proposer: Guard, validator: Guard)

  function Deliver(key: Key, rs: Roles, d: Delivery): Roles {
    match d
    case ToProposer(snap, write, sent) =>
      rs.(proposer := Offer(Proposing, rs.proposer, InfoOf(snap), IsProposer(key, snap)
        && snap.roundStarted, sent, write))
    case ToValidator(snap, now, write, sent) =>
      rs.(validator := Offer(Voting, rs.validator, InfoOf(snap), snap.proposer.Some? && snap.roundStart <= now,
                             !IsProposer(key, snap) && IsMember(key, snap.validators) && sent, write))
    case ProposerCrash => rs.(proposer := Recover(rs.proposer))
    case ValidatorCrash => rs.(validator := Recover(rs.validator))
  }

  function DeliverAll(key: Key, ds: seq<Delivery>): Roles
    decreases |ds|
  {
    if ds == [] then Roles(FRESH, FRESH) else Deliver(key, DeliverAll(key, ds[..|ds| - 1]), ds[|ds| - 1])
  }

  /** What a delivery does: each role applies its guard to the snapshot's height and round, the proposer if
      the snapshot names its key and the round has started, the validator if the snapshot names a proposer
      and its time has come; the validator votes if that is another one and the key is in the set. A crash
      of one role leaves the other alone. */
  lemma DeliverExact(key: Key, rs: Roles, d: Delivery)
    ensures match d
            case ToProposer(snap, write, sent) =>
              var mine := snap.proposer.Some? && snap.proposer.value.pubKey == key;
              Deliver(key, rs, d) == Roles(GuardStep(Proposing, rs.proposer, Offered(RoundInfo(snap.height, snap.round),
                mine && snap.roundStarted, sent, write)), rs.validator)
            case ToValidator(snap, now, write, sent) =>
              var other := snap.proposer.Some? && snap.proposer.value.pubKey != key;
              var member := exists v :: v in snap.validators && v.pubKey == key;
              Deliver(key, rs, d) == Roles(rs.proposer, GuardStep(Voting, rs.validator,
                Offered(RoundInfo(snap.height, snap.round), snap.proposer.Some? && snap.roundStart <= now,
                  other && member && sent, write)))
            case ProposerCrash =>
              Deliver(key, rs, d) == Roles(Guard(rs.proposer.disk, rs.proposer.disk, rs.proposer.acted), rs.validator)
            case ValidatorCrash =>
              Deliver(key, rs, d) == Roles(rs.proposer, Guard(rs.validator.disk, rs.validator.disk, rs.validator.acted))
  {
    if d.ToValidator? && (exists v :: v in d.snap.validators && v.pubKey == key) {
      var v :| v in d.snap.validators && v.pubKey == key;
      var i :| 0 <= i < |d.snap.validators| && d.snap.validators[i] == v;
      assert d.snap.validators[i].pubKey == key;
    }
  }

  ghost predicate FromRun(ds: seq<Delivery>, emitted: set<Snapshot>) {
    forall i :: 0 <= i < |ds| && (ds[i].ToProposer? || ds[i].ToValidator?) ==> ds[i].snap in emitted
  }

  /** The key proposes on the snapshot, and so votes for its own block. */
  ghost predicate Proposes(key: Key, snap: Snapshot) {
    IsProposer(key, snap) && snap.roundStarted
  }

  /** The key votes on the block of the snapshot's proposer. */
  ghost predicate VotesOn(key: Key, snap: Snapshot) {
    snap.proposer.Some? && !IsProposer(key, snap) && IsMember(key, snap.validators)
  }

  /** Some emitted snapshot of that round has the key act in the role. */
  ghost predicate Backed(key: Key, emitted: set<Snapshot>, info: RoundInfo, role: Role) {
    exists snap :: snap in emitted && InfoOf(snap) == info
      && (if role == Proposing then Proposes(key, snap) else VotesOn(key, snap))
  }

  ghost predicate AllBacked(key: Key, emitted: set<Snapshot>, acted: seq<RoundInfo>, role: Role) {
    forall i :: 0 <= i < |acted| ==> Backed(key, emitted, acted[i], role)
  }

  lemma {:induction false} DeliveriesOk(key: Key, ds: seq<Delivery>, emitted: set<Snapshot>)
    requires FromRun(ds, emitted)
    ensures var rs := DeliverAll(key, ds);
            && GuardOk(Proposing, rs.proposer) && GuardOk(Voting, rs.validator)
            && AllBacked(key, emitted, rs.proposer.acted, Proposing)
            && AllBacked(key, emitted, rs.validator.acted, Voting)
    decreases |ds|
  {
    if ds != [] {
      var fs, d := ds[..|ds| - 1], ds[|ds| - 1];
      DeliveriesOk(key, fs, emitted);
      var rs := DeliverAll(key, fs);
      match d
      case ToProposer(snap, write, sent) =>
        OfferOk(Proposing, rs.proposer, InfoOf(snap), IsProposer(key, snap) && snap.roundStarted, sent, write);
      case ToValidator(snap, now, write, sent) =>
        OfferOk(Voting, rs.validator, InfoOf(snap), snap.proposer.Some? && snap.roundStart <= now,
                !IsProposer(key, snap) && IsMember(key, snap.validators) && sent, write);
      case _ =>
    }
  }

  ghost function Votes(key: Key, ds: seq<Delivery>): seq<RoundInfo> {
    DeliverAll(key, ds).proposer.acted + DeliverAll(key, ds).validator.acted
  }

  ghost predicate Distinct(votes: seq<RoundInfo>) {
    forall i, j :: 0 <= i < j < |votes| ==> votes[i] != votes[j]
  }

  /** Two snapshots of one height and round: the key proposes on one and votes on the other. */
  ghost predicate Clash(key: Key, a: Snapshot, b: Snapshot) {
    InfoOf(a) == InfoOf(b) && Proposes(key, a) && VotesOn(key, b)
  }

  ghost predicate Clashing(key: Key, emitted: set<Snapshot>) {
    exists a, b :: a in emitted && b in emitted && Clash(key, a, b)
  }

  /** Neither role repeats a round, and without a clash no round is voted on by both. */
  lemma VotesDistinct(key: Key, ds: seq<Delivery>, emitted: set<Snapshot>)
    requires FromRun(ds, emitted) && !Clashing(key, emitted)
    ensures Distinct(Votes(key, ds))
  {
    DeliveriesOk(key, ds, emitted);
    var rs := DeliverAll(key, ds);
    var p, v := rs.proposer.acted, rs.validator.acted;
    forall i, j | 0 <= i < j < |Votes(key, ds)| ensures Votes(key, ds)[i] != Votes(key, ds)[j] {
      if j < |p| {
        assert Passes(Proposing, Some(p[i]), p[j]);
      } else if i >= |p| {
        assert Passes(Voting, Some(v[i - |p|]), v[j - |p|]);
      } else if p[i] == v[j - |p|] {
        assert Backed(key, emitted, p[i], Proposing) && Backed(key, emitted, v[j - |p|], Voting);
        var a :| a in emitted && InfoOf(a) == p[i] && Proposes(key, a);
        var b :| b in emitted && InfoOf(b) == p[i] && VotesOn(key, b);
        assert Clash(key, a, b);
        assert false;
      }
    }
  }

  /** The deliveries that make a clash two votes. */
  ghost function Twice(a: Snapshot, b: Snapshot): seq<Delivery> {
    [ToProposer(a, Stored, true), ToValidator(b, b.roundStart, Stored, true)]
  }

  lemma VotesTwice(a: Snapshot, b: Snapshot, key: Key)
    requires Clash(key, a, b)
    ensures Votes(key, Twice(a, b)) == [InfoOf(a), InfoOf(a)]
  {
    var ds := Twice(a, b);
    assert ds[..1] == [ToProposer(a, Stored, true)] && ds[..1][..0] == [];
    assert DeliverAll(key, ds[..1][..0]) == Roles(FRESH, FRESH);
    assert DeliverAll(key, ds[..1]).proposer.acted == [InfoOf(a)];
    assert DeliverAll(key, ds[..1]).validator == FRESH;
    assert DeliverAll(key, ds).validator.acted == [InfoOf(a)];
  }

  /** One vote per height and round, exactly: however snapshots of a set are delivered, with crashes of
      either role at any time, no two votes are alike if and only if the set holds no clash. */
  lemma OneVoteIff(key: Key, emitted: set<Snapshot>)
    ensures (forall ds :: FromRun(ds, emitted) ==> Distinct(Votes(key, ds))) <==> !Clashing(key, emitted)
  {
    if a, b :| a in emitted && b in emitted && Clash(key, a, b) {
      VotesTwice(a, b, key);
      var votes := Votes(key, Twice(a, b));
      assert votes[0] == votes[1] && !Distinct(votes);
      assert FromRun(Twice(a, b), emitted);
    } else {
      forall ds | FromRun(ds, emitted) ensures Distinct(Votes(key, ds)) {
        VotesDistinct(key, ds, emitted);
      }
    }
  }

  /** One vote per node per height and round of one life of the chain. */
  lemma {:induction false} OneVotePerRound(env: Env, c: Chain, es: seq<Event>, key: Key, ds: seq<Delivery>)
    requires Inv(env, c) && Emissions(env, c) && FromRun(ds, set snap | snap in Run(env, c, es).emitted)
    ensures Distinct(Votes(key, ds))
  {
    var emitted := set snap | snap in Run(env, c, es).emitted;
    forall a, b | a in emitted && b in emitted && InfoOf(a) == InfoOf(b) ensures a.proposer == b.proposer {
      OneProposerPerRound(env, c, es, a, b);
    }
    assert !Clashing(key, emitted);
    VotesDistinct(key, ds, emitted);
  }

  // ---------------------------------------------------------------------------------------
  // Several lives

  /** The snapshots emitted in all lives of the chain. */
  ghost function AllEmitted(env: Env, c: Chain, es: seq<Event>): set<Snapshot>
    decreases |es|
  {
    (set snap | snap in Run(env, c, es).emitted) + if es == [] then {} else AllEmitted(env, c, es[..|es| - 1])
  }

  lemma DescendsTrans(env: Env, a: Ref, b: Ref, c: Ref)
    requires WellHeighted(env) && Known(env, a) && Descends(env, a, b) && IsAncestor(env, b, c)
    ensures Descends(env, a, c)
  {
    assert IsAncestor(env, a, b);
    AncestorsCompose(env, a, b, c);
    AncestorDescends(env, a, c);
  }

  /** Every snapshot of every life is about an ancestor of the last head, at the distance of their heights. */
  lemma {:induction false} EmittedBelow(env: Env, c: Chain, es: seq<Event>, snap: Snapshot)
    requires Inv(env, c) && Emissions(env, c) && c.head.Some? && c.emitted == []
    requires WellHeighted(env) && AdoptionsJoin(env, c, es) && snap in AllEmitted(env, c, es)
    ensures SnapshotOk(env, snap) && Descends(env, snap.lastBlockRef, LastHead(env, c, es))
    decreases |es|
  {
    var fs, e := es[..|es| - 1], es[|es| - 1];
    if snap in AllEmitted(env, c, fs) {
      EmittedBelow(env, c, fs, snap);
      NoRollbackIff(env, c, es);
      DescendsTrans(env, snap.lastBlockRef, LastHead(env, c, fs), LastHead(env, c, es));
    } else {
      RunEmissions(env, c, es);
      var s := Run(env, c, es).emitted;
      var i :| 0 <= i < |s| && s[i] == snap;
      assert Past(env, Run(env, c, es), s[i]);
      NewlyEmitted(env, Run(env, c, fs), e, snap);
    }
  }

  /** One proposer per round over all lives of the chain. */
  lemma {:induction false} OneProposerAcrossLives(env: Env, c: Chain, es: seq<Event>, a: Snapshot, b: Snapshot)
    requires Inv(env, c) && Emissions(env, c) && c.head.Some? && c.emitted == []
    requires WellHeighted(env) && AdoptionsJoin(env, c, es)
    requires a in AllEmitted(env, c, es) && b in AllEmitted(env, c, es) && a.height == b.height && a.round == b.round
    ensures a.lastBlockRef == b.lastBlockRef && a.proposer == b.proposer
  {
    EmittedBelow(env, c, es, a);
    EmittedBelow(env, c, es, b);
  }

  /** One vote per node per height and round over all lives of the chain, with crashes of either role
      at any time, as long as every adopted segment joins the last head. */
  lemma {:induction false} OneVoteAcrossLives(env: Env, c: Chain, es: seq<Event>, key: Key, ds: seq<Delivery>)
    requires Inv(env, c) && Emissions(env, c) && c.head.Some? && c.emitted == []
    requires WellHeighted(env) && AdoptionsJoin(env, c, es) && FromRun(ds, AllEmitted(env, c, es))
    ensures Distinct(Votes(key, ds))
  {
    var emitted := AllEmitted(env, c, es);
    forall a, b | a in emitted && b in emitted && InfoOf(a) == InfoOf(b) ensures a.proposer == b.proposer {
      OneProposerAcrossLives(env, c, es, a, b);
    }
    assert !Clashing(key, emitted);
    VotesDistinct(key, ds, emitted);
  }
}
