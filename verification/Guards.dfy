/**
 The persisted guards that keep a node from acting twice in a round: LastProposal of the
 proposer (chain/proposer.go) and LastVote of the validator (chain/validator.go).
 */
module Guards {
  import opened Blocks
  import opened ChainModel

  datatype RoundInfo = RoundInfo(height: nat, round: nat)

  datatype Role = Proposing | Voting

  /** Lexicographic order on (height, round). */
  predicate Before(a: RoundInfo, b: RoundInfo) {
    a.height < b.height || (a.height == b.height && a.round < b.round)
  }

  /** The test against the last action, as each role writes it. */
  predicate Passes(role: Role, last: Option<RoundInfo>, now: RoundInfo) {
    match role
    case Proposing =>
      && !(last.Some? && last.value.height > now.height)
      && !(last.Some? && last.value.height == now.height && last.value.round >= now.round)
    case Voting =>
      && !(last.Some? && last.value.height > now.height)
      && !(last.Some? && last.value.round >= now.round)
  }

  /** How writeState can end: stored, failed, or failed as reported although it was stored. */
  datatype Write = Stored | Failed | Unsure

  /** The guard in memory and on disk, with the actions taken so far. */
  datatype Guard = Guard(memory: Option<RoundInfo>, disk: Option<RoundInfo>, acted: seq<RoundInfo>)

  const FRESH := Guard(None, None, [])

  /** One snapshot: `eligible` are the tests before the guard, `acts` the decision after it. The
      guard is persisted first, and a reported write failure skips the action. */
  function Offer(role: Role, g: Guard, now: RoundInfo, eligible: bool, acts: bool, write: Write): Guard {
    if !eligible || !Passes(role, g.memory, now) then g
    else
      Guard(Some(now),
            if write.Failed? then g.disk else Some(now),
            if write.Stored? && acts then g.acted + [now] else g.acted)
  }

  /** A crash at any point between snapshots, and the restart from disk. */
  function Recover(g: Guard): Guard {
    g.(memory := g.disk)
  }

  datatype GuardEvent =
    | Offered(now: RoundInfo, eligible: bool, acts: bool, write: Write)
    | Crashed

  function GuardStep(role: Role, g: Guard, e: GuardEvent): Guard {
    match e
    case Offered(now, eligible, acts, write) => Offer(role, g, now, eligible, acts, write)
    case Crashed => Recover(g)
  }

  function GuardRun(role: Role, es: seq<GuardEvent>): Guard
    decreases |es|
  {
    if es == [] then FRESH else GuardStep(role, GuardRun(role, es[..|es| - 1]), es[|es| - 1])
  }

  // ---------------------------------------------------------------------------------------
  // The guards survive crashes

  ghost predicate AtMost(role: Role, a: Option<RoundInfo>, b: Option<RoundInfo>) {
    a.Some? ==> b.Some? && (a == b || Passes(role, a, b.value))
  }

  ghost function LastAct(g: Guard): Option<RoundInfo> {
    if g.acted == [] then None else Some(g.acted[|g.acted| - 1])
  }

  /** The last action is covered by the disk, and the disk by memory. */
  ghost predicate GuardOk(role: Role, g: Guard) {
    && AtMost(role, LastAct(g), g.disk) && AtMost(role, g.disk, g.memory)
    && forall i, j :: 0 <= i < j < |g.acted| ==> Passes(role, Some(g.acted[i]), g.acted[j])
  }

  lemma OfferOk(role: Role, g: Guard, now: RoundInfo, eligible: bool, acts: bool, write: Write)
    requires GuardOk(role, g)
    ensures GuardOk(role, Offer(role, g, now, eligible, acts, write))
  {
  }

  lemma {:induction false} GuardRunOk(role: Role, es: seq<GuardEvent>)
    ensures GuardOk(role, GuardRun(role, es))
    decreases |es|
  {
    if es != [] {
      GuardRunOk(role, es[..|es| - 1]);
      var e := es[|es| - 1];
      if e.Offered? { OfferOk(role, GuardRun(role, es[..|es| - 1]), e.now, e.eligible, e.acts, e.write); }
    }
  }

  /** Over any run with crashes, restarts and failed writes, a node's proposals, and likewise its
      votes, strictly increase in (height, round). */
  lemma ActionsIncrease(role: Role, es: seq<GuardEvent>, i: nat, j: nat)
    requires i < j < |GuardRun(role, es).acted|
    ensures Before(GuardRun(role, es).acted[i], GuardRun(role, es).acted[j])
  {
    GuardRunOk(role, es);
    assert Passes(role, Some(GuardRun(role, es).acted[i]), GuardRun(role, es).acted[j]);
  }

  /** A role may act in a round after its last one: later in (height, round) and, for a validator, in a
      round with a larger number, too. */
  ghost predicate MayAct(role: Role, last: Option<RoundInfo>, now: RoundInfo) {
    last.Some? ==>
    && (last.value.height < now.height || (last.value.height == now.height && last.value.round < now.round))
    && (role == Voting ==> last.value.round < now.round)
  }

  /** What one snapshot does to the guard: if the role is eligible and may act, memory holds the round, the
      disk does unless the write failed, and the role acts if it decides to and the write is reported as
      stored. Otherwise nothing changes. */
  lemma OfferExact(role: Role, g: Guard, now: RoundInfo, eligible: bool, acts: bool, write: Write)
    ensures GuardStep(role, g, Offered(now, eligible, acts, write)) ==
            if eligible && MayAct(role, g.memory, now) then
              Guard(Some(now), if write == Failed then g.disk else Some(now),
                    if write == Stored && acts then g.acted + [now] else g.acted)
            else g
  {
  }

  /** A crash leaves what was stored and what was done. */
  lemma CrashExact(role: Role, g: Guard)
    ensures GuardStep(role, g, Crashed) == Guard(g.disk, g.disk, g.acted)
  {
  }

  /** When a role acts, exactly, after any run with crashes and failed writes. */
  lemma ActsIff(role: Role, es: seq<GuardEvent>, now: RoundInfo, eligible: bool, acts: bool, write: Write)
    ensures var g, h := GuardRun(role, es), GuardRun(role, es + [Offered(now, eligible, acts, write)]);
            && (h.acted == g.acted + [now] <==>
                eligible && acts && write == Stored && MayAct(role, g.memory, now))
            && (h.acted == g.acted + [now] || h.acted == g.acted)
  {
    var e := Offered(now, eligible, acts, write);
    assert (es + [e])[..|es|] == es;
    OfferExact(role, GuardRun(role, es), now, eligible, acts, write);
    assert |GuardRun(role, es).acted + [now]| == |GuardRun(role, es).acted| + 1;
  }

  /** The validator's guard is the lexicographic one and more: the round must grow even when the
      height does. */
  lemma VotingGuardExact(last: RoundInfo, now: RoundInfo)
    ensures Passes(Proposing, Some(last), now) <==> Before(last, now)
    ensures Passes(Voting, Some(last), now) <==> Before(last, now) && last.round < now.round
  {
  }

  /** So over the life of a key, however many heights pass, votes in rounds up to `r` number at
      most `r + 1`. */
  lemma {:induction false} VotesBoundedByRound(es: seq<GuardEvent>, k: nat)
    requires k < |GuardRun(Voting, es).acted|
    ensures GuardRun(Voting, es).acted[k].round >= k
    decreases k
  {
    if k > 0 {
      VotesBoundedByRound(es, k - 1);
      GuardRunOk(Voting, es);
      var acted := GuardRun(Voting, es).acted;
      assert Passes(Voting, Some(acted[k - 1]), acted[k]);
    }
  }

  // ---------------------------------------------------------------------------------------
  // The two roles as objects

  function InfoOf(snap: Snapshot): RoundInfo {
    RoundInfo(snap.height, snap.round)
  }

  predicate IsProposer(key: Key, snap: Snapshot) {
    snap.proposer.Some? && snap.proposer.value.pubKey == key
  }

  predicate IsMember(key: Key, validators: seq<Validator>) {
    exists i :: 0 <= i < |validators| && validators[i].pubKey == key
  }

  class Proposer {
    const key: Key
    var lastProposal: Option<RoundInfo>
    var stored: Option<RoundInfo>     // what the database holds
    ghost var proposals: seq<RoundInfo>

    ghost function View(): Guard
      reads this
    {
      Guard(lastProposal, stored, proposals)
    }

    /** NewProposer: the state is read back from the database. */
    constructor (key: Key, stored: Option<RoundInfo>, ghost past: seq<RoundInfo>)
      ensures this.key == key && View() == Recover(Guard(None, stored, past))
    {
      this.key, this.stored, lastProposal, proposals := key, stored, stored, past;
    }

    method WriteState(write: Write) returns (ok: bool)
      modifies this`stored
      ensures ok == write.Stored? && stored == if write.Failed? then old(stored) else lastProposal
    {
      if !write.Failed? {
        stored := lastProposal;
      }
      ok := write.Stored?;
    }

    /** The head of the proposer's loop, up to the call of makeProposal. */
    method ConsiderSnapshot(snap: Snapshot, write: Write) returns (propose: bool)
      modifies this
      ensures View() == Offer(Proposing, old(View()), InfoOf(snap), IsProposer(key, snap)
              && snap.roundStarted, true, write)
      ensures propose <==>
              && snap.proposer.Some? && snap.proposer.value.pubKey == key && snap.roundStarted
              && MayAct(Proposing, old(lastProposal), RoundInfo(snap.height, snap.round)) && write == Stored
      ensures proposals == if propose then old(proposals) + [RoundInfo(snap.height, snap.round)] else old(proposals)
    {
      if snap.proposer.None? || !snap.roundStarted || snap.proposer.value.pubKey != key {
        return false;
      }
      if lastProposal.Some? && lastProposal.value.height > snap.height {
        return false;
      }
      if lastProposal.Some? && lastProposal.value.height == snap.height && lastProposal.value.round >= snap.round {
        return false;
      }
      lastProposal := Some(RoundInfo(snap.height, snap.round));
      var ok := WriteState(write);
      if !ok {
        return false;
      }
      proposals := proposals + [InfoOf(snap)];
      return true;
    }
  }

  class VotingValidator {
    const key: Key
    var lastVote: Option<RoundInfo>
    var stored: Option<RoundInfo>
    ghost var votes: seq<RoundInfo>

    ghost function View(): Guard
      reads this
    {
      Guard(lastVote, stored, votes)
    }

    constructor (key: Key, stored: Option<RoundInfo>, ghost past: seq<RoundInfo>)
      ensures this.key == key && View() == Recover(Guard(None, stored, past))
    {
      this.key, this.stored, lastVote, votes := key, stored, stored, past;
    }

    /** processStateSnapshot, at time `now`. `sent` says whether makeVote saw a matching proposal
        before the snapshot was cancelled. */
    method ProcessStateSnapshot(snap: Snapshot, now: int, write: Write, sent: bool) returns (voted: bool)
      modifies this
      ensures View() == Offer(Voting, old(View()), InfoOf(snap), snap.proposer.Some? && snap.roundStart <= now,
                              !IsProposer(key, snap) && IsMember(key, snap.validators) && sent, write)
      ensures voted <==>
              && snap.proposer.Some? && snap.proposer.value.pubKey != key && snap.roundStart <= now
              && MayAct(Voting, old(lastVote), RoundInfo(snap.height, snap.round)) && write == Stored && sent
              && exists v :: v in snap.validators && v.pubKey == key
      ensures votes == if voted then old(votes) + [RoundInfo(snap.height, snap.round)] else old(votes)
    {
      if snap.proposer.None? || snap.roundStart > now {
        return false;
      }
      if lastVote.Some? && lastVote.value.height > snap.height {
        return false;
      }
      if lastVote.Some? && lastVote.value.round >= snap.round {
        return false;
      }
      lastVote := Some(RoundInfo(snap.height, snap.round));
      if !write.Failed? {
        stored := lastVote;
      }
      if !write.Stored? {
        return false;
      }
      if snap.proposer.value.pubKey != key {
        var weAreValidator := false;
        for i := 0 to |snap.validators|
          invariant !weAreValidator && forall k :: 0 <= k < i ==> snap.validators[k].pubKey != key
        {
          if snap.validators[i].pubKey == key {
            weAreValidator := true;
            break;
          }
        }
        if weAreValidator && sent {
          votes := votes + [InfoOf(snap)];
          return true;
        }
      }
      return false;
    }
  }
}
