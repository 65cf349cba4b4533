/**
 Voting power: the commit threshold, quorums, and the loop in which a proposer collects votes
 (block/block.go, chain/proposer.go).
 */
module Votes {
  import opened Blocks

  /** The power required to commit: BlockCommitRatio of the total, truncated. Exact arithmetic,
      where the code multiplies in float32. */
  function Threshold(total: nat): nat {
    66 * total / 100
  }

  // ---------------------------------------------------------------------------------------
  // Quorums

  /** The power of the validators at the positions in `members`, among the first `n`. */
  ghost function Power(validators: seq<Validator>, members: set<int>, n: nat): nat
    requires n <= |validators|
    decreases n
  {
    if n == 0 then 0
    else Power(validators, members, n - 1) + if n - 1 in members then validators[n - 1].power else 0
  }

  ghost function TotalOf(validators: seq<Validator>, n: nat): nat
    requires n <= |validators|
    decreases n
  {
    if n == 0 then 0 else TotalOf(validators, n - 1) + validators[n - 1].power
  }

  ghost function Total(validators: seq<Validator>): nat {
    TotalOf(validators, |validators|)
  }

  ghost predicate Quorum(validators: seq<Validator>, members: set<int>) {
    Power(validators, members, |validators|) >= Threshold(Total(validators))
  }

  ghost predicate Intersect(validators: seq<Validator>, a: set<int>, b: set<int>) {
    exists i :: 0 <= i < |validators| && i in a && i in b
  }

  /** Members are a quorum if and only if they hold 66 of a hundred parts of the total, cut to a whole unit
      of power. */
  lemma QuorumExact(validators: seq<Validator>, members: set<int>)
    ensures Quorum(validators, members) <==>
            100 * Power(validators, members, |validators|) > 66 * Total(validators) - 100
  {
  }

  lemma {:induction false} DisjointPower(validators: seq<Validator>, a: set<int>, b: set<int>, n: nat)
    requires n <= |validators| && !Intersect(validators, a, b)
    ensures Power(validators, a, n) + Power(validators, b, n) <= TotalOf(validators, n)
    decreases n
  {
    if n > 0 { DisjointPower(validators, a, b, n - 1); }
  }

  lemma QuorumsIntersect(validators: seq<Validator>, a: set<int>, b: set<int>)
    requires Quorum(validators, a) && Quorum(validators, b)
    requires Total(validators) == 5 || Total(validators) >= 7
    ensures Intersect(validators, a, b)
  {
    if !Intersect(validators, a, b) {
      DisjointPower(validators, a, b, |validators|);
    }
  }

  /** Two validators that split the power `total` as evenly as it goes. */
  function Split(total: nat): seq<Validator> {
    [Validator(0, total / 2, true), Validator(1, total - total / 2, true)]
  }

  lemma SplitPower(total: nat)
    ensures Total(Split(total)) == total
    ensures Power(Split(total), {0}, 2) == total / 2 && Power(Split(total), {1}, 2) == total - total / 2
  {
  }

  /** Quorum overlap, exactly: any two quorums of any validator set with total power `total` share
      a validator if and only if the total is 5 or at least 7. */
  lemma QuorumOverlapExact(total: nat)
    ensures (forall vs, a, b :: Total(vs) == total && Quorum(vs, a) && Quorum(vs, b) ==> Intersect(vs, a, b))
            <==> total == 5 || total >= 7
  {
    if total == 5 || total >= 7 {
      forall vs, a, b | Total(vs) == total && Quorum(vs, a) && Quorum(vs, b) ensures Intersect(vs, a, b) {
        QuorumsIntersect(vs, a, b);
      }
    } else {
      SplitPower(total);
      var vs, a, b := Split(total), {0}, {1};
      assert Quorum(vs, a) && Quorum(vs, b) && !Intersect(vs, a, b);
    }
  }

  // ---------------------------------------------------------------------------------------
  // The vote loop

  /** What the proposer waits on: a message from the peer of validator entry `voter`, or the
      cancellation of the snapshot. `isVote` and `resolves` are the tests of waitForValidatorVote. */
  datatype Arrival = Message(voter: int, isVote: bool, resolves: bool) | Cancelled

  /** The entries for which a goroutine waits. */
  ghost function Waiting(validators: seq<Validator>, reachable: set<int>): set<int> {
    set i | 0 <= i < |validators| && validators[i].operating && i in reachable
  }

  /** The votes that come through before a cancellation, each entry's first one only. */
  ghost function Confirmed(arrivals: seq<Arrival>, waiting: set<int>): seq<int>
    decreases |arrivals|
  {
    if arrivals == [] || arrivals[0].Cancelled? then []
    else
      var m := arrivals[0];
      if m.voter in waiting && m.isVote && m.resolves
      then [m.voter] + Confirmed(arrivals[1..], waiting - {m.voter})
      else Confirmed(arrivals[1..], waiting)
  }

  function PowerAt(validators: seq<Validator>, i: int): nat {
    if 0 <= i < |validators| then validators[i].power else 0
  }

  /** The accumulated power of a sequence of votes. */
  ghost function Standing(validators: seq<Validator>, votes: seq<int>): nat
    decreases |votes|
  {
    if votes == [] then 0
    else Standing(validators, votes[..|votes| - 1]) + PowerAt(validators, votes[|votes| - 1])
  }

  ghost predicate DistinctIn(votes: seq<int>, waiting: set<int>) {
    && (forall i :: 0 <= i < |votes| ==> votes[i] in waiting)
    && (forall i, j :: 0 <= i < j < |votes| ==> votes[i] != votes[j])
  }

  /** Each confirmed vote is from a different waiting entry. */
  lemma {:induction false} ConfirmedDistinct(arrivals: seq<Arrival>, waiting: set<int>)
    ensures DistinctIn(Confirmed(arrivals, waiting), waiting)
    decreases |arrivals|
  {
    if arrivals != [] && arrivals[0].Message? {
      var m := arrivals[0];
      if m.voter in waiting && m.isVote && m.resolves {
        ConfirmedDistinct(arrivals[1..], waiting - {m.voter});
      } else {
        ConfirmedDistinct(arrivals[1..], waiting);
      }
    }
  }

  /** The event at `n` is the vote of entry `v`, and nothing was cancelled before it. */
  ghost predicate VoteAt(arrivals: seq<Arrival>, n: nat, v: int) {
    n < |arrivals| && arrivals[n] == Message(v, true, true) && forall k :: 0 <= k < n ==> arrivals[k] != Cancelled
  }

  /** Whose votes are confirmed, exactly: a waiting entry's, if a message of its peer that is a vote and
      resolves arrives before a cancellation. */
  lemma {:induction false} ConfirmedIff(arrivals: seq<Arrival>, waiting: set<int>, v: int)
    ensures v in Confirmed(arrivals, waiting) <==> v in waiting && exists n: nat :: VoteAt(arrivals, n, v)
    decreases |arrivals|
  {
    if arrivals != [] {
      var m, rest := arrivals[0], arrivals[1..];
      if m.Message? && m.voter in waiting && m.isVote && m.resolves {
        ConfirmedIff(rest, waiting - {m.voter}, v);
        assert VoteAt(arrivals, 0, m.voter);
      } else if m.Message? {
        ConfirmedIff(rest, waiting, v);
      }
      VoteShift(arrivals, v);
    }
  }

  lemma VoteShift(arrivals: seq<Arrival>, v: int)
    requires arrivals != []
    ensures (exists n: nat :: VoteAt(arrivals, n, v)) <==>
            arrivals[0] == Message(v, true, true)
            || (arrivals[0] != Cancelled && exists n: nat :: VoteAt(arrivals[1..], n, v))
  {
    if n: nat :| VoteAt(arrivals, n, v) {
      if n == 0 { assert arrivals[0] == Message(v, true, true); } else { assert VoteAt(arrivals[1..], n - 1, v); }
    }
    if arrivals[0] == Message(v, true, true) { assert VoteAt(arrivals, 0, v); }
    if n: nat :| VoteAt(arrivals[1..], n, v) {
      if arrivals[0] != Cancelled {
        forall k | 0 <= k < n + 1 ensures arrivals[k] != Cancelled {
          if k > 0 { assert arrivals[1..][k - 1] != Cancelled; }
        }
        assert VoteAt(arrivals, n + 1, v);
      }
    }
  }

  /** Some single vote reaches the threshold. */
  ghost predicate OneSuffices(validators: seq<Validator>, votes: seq<int>, required: nat) {
    exists i :: 0 <= i < |votes| && PowerAt(validators, votes[i]) >= required
  }

  /** What the loop can achieve at all: some arrivals make it mint exactly when one waiting
      validator holds the threshold alone. */
  lemma CanMintIff(validators: seq<Validator>, reachable: set<int>, required: nat)
    ensures (exists arrivals :: OneSuffices(validators, Confirmed(arrivals, Waiting(validators, reachable)), required))
            <==> (exists i :: i in Waiting(validators, reachable) && PowerAt(validators, i) >= required)
  {
    var waiting := Waiting(validators, reachable);
    if i :| i in waiting && PowerAt(validators, i) >= required {
      var arrivals := [Message(i, true, true)];
      assert Confirmed(arrivals, waiting)[0] == i;
      assert OneSuffices(validators, Confirmed(arrivals, waiting), required);
    }
    forall arrivals | OneSuffices(validators, Confirmed(arrivals, waiting), required)
      ensures exists i :: i in waiting && PowerAt(validators, i) >= required
    {
      ConfirmedDistinct(arrivals, waiting);
      var i :| 0 <= i < |Confirmed(arrivals, waiting)|
        && PowerAt(validators, Confirmed(arrivals, waiting)[i]) >= required;
      assert Confirmed(arrivals, waiting)[i] in waiting;
    }
  }

  /** Every validator votes and the accumulated power exceeds the threshold, yet no vote carries it
      alone: an accumulating loop would mint, the loop as written does not. */
  ghost predicate Missed(validators: seq<Validator>, arrivals: seq<Arrival>) {
    var votes := Confirmed(arrivals, Waiting(validators, {0, 1, 2}));
    var required := Threshold(Total(validators));
    Standing(validators, votes) > required && !OneSuffices(validators, votes, required)
  }

  lemma ConfirmedThree(waiting: set<int>)
    requires waiting == {0, 1, 2}
    ensures Confirmed([Message(0, true, true), Message(1, true, true), Message(2, true, true)], waiting) == [0, 1, 2]
  {
  }

  lemma StandingThree(validators: seq<Validator>, p: nat)
    requires |validators| == 3 && forall i :: 0 <= i < 3 ==> validators[i].power == p
    ensures Standing(validators, [0, 1, 2]) == 3 * p && Total(validators) == 3 * p
  {
    assert [0, 1, 2][..2] == [0, 1] && [0, 1][..1] == [0] && [0][..0] == [];
    assert Standing(validators, []) == 0;
    assert Standing(validators, [0]) == p;
    assert Standing(validators, [0, 1]) == 2 * p;
    assert TotalOf(validators, 0) == 0;
    assert TotalOf(validators, 1) == p;
    assert TotalOf(validators, 2) == 2 * p;
  }

  lemma AccumulatedQuorumIsMissed()
    ensures exists validators, arrivals :: Missed(validators, arrivals)
  {
    var vs := [Validator(0, 10, true), Validator(1, 10, true), Validator(2, 10, true)];
    var arrivals := [Message(0, true, true), Message(1, true, true), Message(2, true, true)];
    assert Waiting(vs, {0, 1, 2}) == {0, 1, 2};
    ConfirmedThree(Waiting(vs, {0, 1, 2}));
    StandingThree(vs, 10);
    assert Missed(vs, arrivals);
  }

  ghost predicate Counts(m: Arrival, waiting: set<int>) {
    m.Message? && m.voter in waiting && m.isVote && m.resolves
  }

  lemma ConfirmedNext(arrivals: seq<Arrival>, n: nat, waiting: set<int>, done: seq<int>)
    requires n < |arrivals| && arrivals[n].Message?
    ensures !Counts(arrivals[n], waiting) ==>
            Confirmed(arrivals[n..], waiting) == Confirmed(arrivals[n + 1..], waiting)
    ensures Counts(arrivals[n], waiting) ==>
              var v := arrivals[n].voter;
              done + Confirmed(arrivals[n..], waiting) == done + [v] + Confirmed(arrivals[n + 1..], waiting - {v})
  {
  }

  /** No vote but the last `k` carries the threshold alone. */
  ghost predicate NoneBefore(validators: seq<Validator>, votes: seq<int>, k: nat, required: nat) {
    forall i :: 0 <= i < |votes| - k ==> PowerAt(validators, votes[i]) < required
  }

  lemma NoneBeforeNext(validators: seq<Validator>, votes: seq<int>, v: int, required: nat)
    requires NoneBefore(validators, votes, 0, required)
    ensures NoneBefore(validators, votes + [v], 1, required)
    ensures PowerAt(validators, v) < required ==> NoneBefore(validators, votes + [v], 0, required)
  {
  }

  /** From where the loop stops to what it achieved. */
  lemma LoopOutcome(validators: seq<Validator>, waiting: set<int>, votes: seq<int>, confirmed: seq<int>,
      required: nat, minted: bool)
    requires confirmed <= votes && (!minted ==> confirmed == votes)
    requires minted ==> confirmed != [] && PowerAt(validators, confirmed[|confirmed| - 1]) >= required
    requires NoneBefore(validators, confirmed, if minted then 1 else 0, required)
    requires DistinctIn(votes, waiting)
    ensures DistinctIn(confirmed, waiting)
    ensures minted ==> Standing(validators, confirmed) >= required
    ensures minted <==> OneSuffices(validators, votes, required)
  {
  }

  /** The first loop: one goroutine for each operating entry whose peer is known. */
  method StartWaiting(validators: seq<Validator>, reachable: set<int>) returns (waiting: set<int>)
    ensures waiting == Waiting(validators, reachable)
  {
    waiting := {};
    for i := 0 to |validators|
      invariant waiting == set k | 0 <= k < i && validators[k].operating && k in reachable
    {
      if validators[i].operating && i in reachable {
        waiting := waiting + {i};
      }
    }
  }

  /** The second loop, as written: the standing starts again from zero with every vote, so it is
      the power of that vote alone that is compared with the threshold. */
  method VoteLoop(validators: seq<Validator>, entries: set<int>, arrivals: seq<Arrival>, required: nat)
    returns (minted: bool, confirmed: seq<int>)
    ensures confirmed <= Confirmed(arrivals, entries) && (!minted ==> confirmed == Confirmed(arrivals, entries))
    ensures minted ==> confirmed != [] && PowerAt(validators, confirmed[|confirmed| - 1]) >= required
    ensures NoneBefore(validators, confirmed, if minted then 1 else 0, required)
  {
    var waiting := entries;
    minted, confirmed := false, [];
    var n := 0;
    assert arrivals[0..] == arrivals;
    ghost var rest := Confirmed(arrivals, entries);
    while n < |arrivals| && arrivals[n].Message? && !minted
      invariant 0 <= n <= |arrivals| && rest == Confirmed(arrivals[n..], waiting)
      invariant confirmed + rest == Confirmed(arrivals, entries)
      invariant minted ==> confirmed != [] && PowerAt(validators, confirmed[|confirmed| - 1]) >= required
      invariant NoneBefore(validators, confirmed, if minted then 1 else 0, required)
    {
      var m := arrivals[n];
      ConfirmedNext(arrivals, n, waiting, confirmed);
      n := n + 1;
      if m.voter in waiting && m.isVote && m.resolves {
        var currVoteStanding := 0;
        waiting := waiting - {m.voter};
        currVoteStanding := currVoteStanding + PowerAt(validators, m.voter);
        NoneBeforeNext(validators, confirmed, m.voter, required);
        confirmed := confirmed + [m.voter];
        minted := currVoteStanding >= required;
      }
      rest := Confirmed(arrivals[n..], waiting);
    }
  }

  /** Both loops: a minted block carries votes of different operating validators whose joint power
      reaches the threshold, and a block is minted exactly when one vote suffices alone. */
  method CollectVotes(validators: seq<Validator>, reachable: set<int>, arrivals: seq<Arrival>, required: nat)
    returns (minted: bool, confirmed: seq<int>)
    ensures confirmed <= Confirmed(arrivals, Waiting(validators, reachable))
            && DistinctIn(confirmed, Waiting(validators, reachable))
    ensures minted ==> Standing(validators, confirmed) >= required
    ensures minted <==> OneSuffices(validators, Confirmed(arrivals, Waiting(validators, reachable)), required)
  {
    var waiting := StartWaiting(validators, reachable);
    minted, confirmed := VoteLoop(validators, waiting, arrivals, required);
    ConfirmedDistinct(arrivals, waiting);
    LoopOutcome(validators, waiting, Confirmed(arrivals, waiting), confirmed, required, minted);
  }

  // ---------------------------------------------------------------------------------------
  // Minted blocks and quorums

  ghost function Voters(votes: seq<int>): set<int> {
    set v | v in votes
  }

  lemma {:induction false} PowerAdd(validators: seq<Validator>, members: set<int>, v: int, n: nat)
    requires v !in members && 0 <= v && n <= |validators|
    ensures Power(validators, members + {v}, n) == Power(validators, members, n) + if v < n
            then validators[v].power else 0
    decreases n
  {
    if n > 0 { PowerAdd(validators, members, v, n - 1); }
  }

  lemma {:induction false} PowerOfNone(validators: seq<Validator>, n: nat)
    requires n <= |validators|
    ensures Power(validators, {}, n) == 0
    decreases n
  {
    if n > 0 { PowerOfNone(validators, n - 1); }
  }

  lemma {:induction false} StandingIsPower(validators: seq<Validator>, reachable: set<int>, votes: seq<int>)
    requires DistinctIn(votes, Waiting(validators, reachable))
    ensures Standing(validators, votes) == Power(validators, Voters(votes), |validators|)
    decreases |votes|
  {
    if votes == [] {
      PowerOfNone(validators, |validators|);
      assert Voters(votes) == {};
    } else {
      var k := |votes| - 1;
      StandingIsPower(validators, reachable, votes[..k]);
      assert Voters(votes) == Voters(votes[..k]) + {votes[k]};
      PowerAdd(validators, Voters(votes[..k]), votes[k], |validators|);
    }
  }

  /** Any two blocks the loop mints under one validator set carry the vote of a common validator,
      once the total power is 5 or at least 7. */
  lemma MintedBlocksShareVoter(validators: seq<Validator>, reachA: set<int>, reachB: set<int>, votesA: seq<int>,
      votesB: seq<int>)
    requires DistinctIn(votesA, Waiting(validators, reachA)) && DistinctIn(votesB, Waiting(validators, reachB))
    requires Standing(validators, votesA) >= Threshold(Total(validators))
    requires Standing(validators, votesB) >= Threshold(Total(validators))
    requires Total(validators) == 5 || Total(validators) >= 7
    ensures exists v :: v in votesA && v in votesB && 0 <= v < |validators| && validators[v].operating
  {
    StandingIsPower(validators, reachA, votesA);
    StandingIsPower(validators, reachB, votesB);
    QuorumsIntersect(validators, Voters(votesA), Voters(votesB));
    var v :| 0 <= v < |validators| && v in Voters(votesA) && v in Voters(votesB);
    assert v in votesA && v in votesB && v in Waiting(validators, reachA);
  }
}
