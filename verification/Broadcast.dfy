/**
 The snapshot broadcast (chain/chain_state.go): one emitter, a one-place channel per subscriber
 that drops its oldest entry, and a context per snapshot. One subscriber is modelled; channels of
 different subscribers do not interact. Snapshots are named by their position in the emission
 order, starting at 1, and every interleaving of emitter, subscriber and subscription is a run.
 */
module Broadcast {
  import opened Blocks

  /** Where the emitter is: between emissions, walking the subscriptions with snapshot `v` (`must`
      when this one was registered before the walk), or in the enqueue loop's `pass`-th pass,
      about to try the send or about to drain. */
  datatype Emitter = Resting | Ranging(v: nat, must: bool) | Sending(v: nat, pass: nat) | Draining(v: nat, pass: nat)

  datatype Bus = Bus(
    count: nat,                  // snapshots emitted
    cancelled: set<nat>,         // snapshots whose context is cancelled
    emitter: Emitter,
    subscribed: bool,            // the channel exists
    registered: bool,            // the subscription is in the map
    channel: Option<nat>,
    received: seq<nat>,
    overlapped: bool,            // history: subscribed in the middle of an emission
    latest: nat)                 // history: the newest snapshot put, or being put, into the channel

  const START := Bus(0, {}, Resting, false, false, None, [], false, 0)

  datatype Event = Emit | Visit | EndRange | TrySend | Drain | Subscribe | Register | Receive

  /** nextStateSnapshotCtx cancels the previous context; then the walk starts. */
  function Emitted(b: Bus): Bus {
    b.(count := b.count + 1,
       cancelled := if b.count == 0 then {} else b.cancelled + {b.count},
       emitter := Ranging(b.count + 1, b.registered))
  }

  /** SubscribeState up to the Store: the new channel holds the last snapshot, if there is one. */
  function Subscribed(b: Bus): Bus {
    b.(subscribed := true,
       channel := if b.count == 0 then None else Some(b.count),
       overlapped := b.emitter != Resting,
       latest := b.count)
  }

  predicate Visits(b: Bus, e: Event) {
    e.Visit? && b.emitter.Ranging? && b.registered
  }

  predicate Joins(b: Bus, e: Event) {
    e.Subscribe? && !b.subscribed
  }

  function Step(b: Bus, e: Event): Bus {
    match e
    case Emit => if b.emitter == Resting then Emitted(b) else b
    case Visit =>
      if Visits(b, e) then b.(emitter := Sending(b.emitter.v, 1), latest := b.emitter.v) else b
    case EndRange =>
      if b.emitter.Ranging? && !b.emitter.must then b.(emitter := Resting) else b
    case TrySend =>
      if !b.emitter.Sending? then b
      else if b.channel.None? then b.(channel := Some(b.emitter.v), emitter := Resting)
      else b.(emitter := Draining(b.emitter.v, b.emitter.pass))
    case Drain =>
      if b.emitter.Draining? then b.(channel := None, emitter := Sending(b.emitter.v, b.emitter.pass + 1)) else b
    case Subscribe =>
      if Joins(b, e) then Subscribed(b) else b
    case Register =>
      if b.subscribed then b.(registered := true) else b
    case Receive =>
      if b.channel.Some? then b.(channel := None, received := b.received + [b.channel.value]) else b
  }

  function Run(es: seq<Event>): Bus
    decreases |es|
  {
    if es == [] then START else Step(Run(es[..|es| - 1]), es[|es| - 1])
  }

  lemma RunNext(es: seq<Event>, e: Event)
    ensures Run(es + [e]) == Step(Run(es), e)
  {
  }

  // ---------------------------------------------------------------------------------------
  // The invariant

  /** What the subscriber has received or will receive unless it is drained. */
  ghost function Delivered(b: Bus): seq<nat> {
    b.received + if b.channel.Some? then [b.channel.value] else []
  }

  /** The only pair that may be equal is the first two entries of an overlapping subscription. */
  ghost predicate Ordered(d: seq<nat>, overlapped: bool) {
    forall i, j :: 0 <= i < j < |d| ==> d[i] < d[j] || (overlapped && i == 0 && j == 1 && d[i] == d[j])
  }

  ghost predicate Within(d: seq<nat>, n: nat) {
    forall i :: 0 <= i < |d| ==> 1 <= d[i] <= n
  }

  /** Everything delivered is older than `n`, except the single first entry of an overlapping
      subscription. */
  ghost predicate Older(d: seq<nat>, n: nat, overlapped: bool) {
    forall i :: 0 <= i < |d| ==> d[i] < n || (overlapped && |d| == 1 && d[i] == n)
  }

  ghost predicate InOrder(b: Bus) {
    && Ordered(Delivered(b), b.overlapped) && Within(Delivered(b), b.latest)
    && (b.emitter != Resting ==> b.emitter.v == b.count >= 1 && Older(Delivered(b), b.count, b.overlapped))
  }

  ghost predicate PassOk(b: Bus) {
    && (b.emitter.Sending? ==> b.registered && (b.emitter.pass == 1 || (b.emitter.pass == 2 && b.channel.None?)))
    && (b.emitter.Draining? ==> b.registered && b.emitter.pass == 1)
    && (b.emitter.Ranging? && b.emitter.must ==> b.registered)
    && (b.registered ==> b.subscribed)
    && (!b.subscribed ==> b.channel.None? && b.received == [] && !b.overlapped && b.latest == 0)
  }

  /** Snapshot `v` waits in the channel or is the last one received. */
  ghost predicate Holds(b: Bus, v: nat) {
    Delivered(b) != [] && Delivered(b)[|Delivered(b)| - 1] == v
  }

  ghost predicate LatestOk(b: Bus) {
    && b.latest <= b.count
    && ((b.emitter == Resting || b.emitter.Ranging?) && b.latest > 0 ==> Holds(b, b.latest))
    && (b.emitter.Sending? || b.emitter.Draining? ==> b.latest == b.count)
  }

  ghost predicate ContextsOk(b: Bus) {
    forall v :: v in b.cancelled <==> 1 <= v < b.count
  }

  ghost predicate BusOk(b: Bus) {
    InOrder(b) && PassOk(b) && LatestOk(b) && ContextsOk(b)
  }

  lemma SendOrdered(d: seq<nat>, v: nat, overlapped: bool)
    requires Ordered(d, overlapped) && Within(d, v) && Older(d, v, overlapped) && v >= 1
    ensures Ordered(d + [v], overlapped) && Within(d + [v], v)
  {
  }

  /** What a step does to the delivered snapshots: a send appends, a drain takes the waiting one,
      a subscription starts with the last one, and nothing else changes them. */
  lemma StepDelivers(b: Bus, e: Event)
    requires !b.subscribed ==> Delivered(b) == []
    ensures var d := Delivered(Step(b, e));
            || d == Delivered(b)
            || (e.TrySend? && b.emitter.Sending? && b.channel.None? && d == Delivered(b) + [b.emitter.v])
            || (e.Drain? && b.emitter.Draining? && d == b.received <= Delivered(b))
            || (Joins(b, e) && b.count > 0 && d == [b.count])
  {
    if e.Receive? && b.channel.Some? { assert b.received + [b.channel.value] + [] == Delivered(b); }
  }

  lemma DrainOrdered(d: seq<nat>, c: seq<nat>, n: nat, v: nat, overlapped: bool)
    requires c <= d && Ordered(d, overlapped) && Within(d, n) && Older(d, v, overlapped)
    ensures Ordered(c, overlapped) && Within(c, n) && Older(c, v, overlapped)
  {
    forall i | 0 <= i < |c| ensures 1 <= c[i] <= n && (c[i] < v || (overlapped && |c| == 1 && c[i] == v)) {
      assert c[i] == d[i];
    }
    forall i, j | 0 <= i < j < |c| ensures c[i] < c[j] || (overlapped && i == 0 && j == 1 && c[i] == c[j]) {
      assert c[i] == d[i] && c[j] == d[j];
    }
  }

  lemma OlderThanNext(d: seq<nat>, n: nat, v: nat, overlapped: bool)
    requires Within(d, n) && n < v
    ensures Older(d, v, overlapped)
  {
  }

  lemma TrySendInOrder(b: Bus)
    requires InOrder(b) && LatestOk(b)
    ensures InOrder(Step(b, TrySend))
  {
    if b.emitter.Sending? && b.channel.None? {
      SendOrdered(Delivered(b), b.count, b.overlapped);
      assert Delivered(Step(b, TrySend)) == Delivered(b) + [b.count];
    }
  }

  lemma DrainInOrder(b: Bus)
    requires InOrder(b)
    ensures InOrder(Step(b, Drain))
  {
    if b.emitter.Draining? {
      DrainOrdered(Delivered(b), b.received, b.latest, b.count, b.overlapped);
      assert Delivered(Step(b, Drain)) == b.received;
    }
  }

  lemma SubscribeInOrder(b: Bus)
    requires InOrder(b) && PassOk(b)
    ensures InOrder(Step(b, Subscribe))
  {
    if !b.subscribed {
      assert Delivered(Subscribed(b)) == if b.count == 0 then [] else [b.count];
    }
  }

  /** A step that delivers nothing. */
  lemma SameDelivered(b: Bus, c: Bus)
    requires InOrder(b) && Delivered(c) == Delivered(b) && c.overlapped == b.overlapped && b.latest <= c.latest
    requires c.emitter != Resting ==> c.emitter.v == c.count >= 1 && Older(Delivered(b), c.count, b.overlapped)
    ensures InOrder(c)
  {
  }

  lemma StepInOrder(b: Bus, e: Event)
    requires InOrder(b) && LatestOk(b) && PassOk(b)
    ensures InOrder(Step(b, e))
  {
    if e.TrySend? {
      TrySendInOrder(b);
    } else if e.Drain? {
      DrainInOrder(b);
    } else if e.Subscribe? {
      SubscribeInOrder(b);
    } else {
      OlderThanNext(Delivered(b), b.latest, b.count + 1, b.overlapped);
      StepDelivers(b, e);
      SameDelivered(b, Step(b, e));
    }
  }

  lemma StepLatest(b: Bus, e: Event)
    requires BusOk(b)
    ensures LatestOk(Step(b, e))
  {
    StepDelivers(b, e);
  }

  lemma StepPass(b: Bus, e: Event)
    requires PassOk(b) && ContextsOk(b)
    ensures PassOk(Step(b, e)) && ContextsOk(Step(b, e))
  {
  }

  lemma StepOk(b: Bus, e: Event)
    requires BusOk(b)
    ensures BusOk(Step(b, e))
  {
    StepInOrder(b, e);
    StepLatest(b, e);
    StepPass(b, e);
  }

  lemma {:induction false} RunOk(es: seq<Event>)
    ensures BusOk(Run(es))
    decreases |es|
  {
    if es != [] {
      RunOk(es[..|es| - 1]);
      StepOk(Run(es[..|es| - 1]), es[|es| - 1]);
    }
  }

  // ---------------------------------------------------------------------------------------
  // Order and repetition

  /** A subscriber receives emitted snapshots in emission order; no snapshot twice, except that the
      first two can be the same if it subscribed in the middle of an emission. */
  lemma ReceivedInOrder(es: seq<Event>, i: nat, j: nat)
    requires i < j < |Run(es).received|
    ensures 1 <= Run(es).received[i] <= Run(es).received[j] <= Run(es).count
    ensures Run(es).received[i] == Run(es).received[j] ==> Run(es).overlapped && i == 0 && j == 1
  {
    RunOk(es);
    var d := Delivered(Run(es));
    assert d[i] == Run(es).received[i] && d[j] == Run(es).received[j];
  }

  ghost predicate Repeated(b: Bus) {
    |b.received| > 1 && b.received[0] == b.received[1]
  }

  /** The snapshot the subscription started with has been received already when the enqueue loop
      finds room for it. */
  ghost predicate DrainedEarly(b: Bus) {
    b.emitter.Sending? && b.channel.None? && b.received == [b.count]
  }

  /** The one snapshot received so far waits in the channel again. */
  ghost predicate Doubled(b: Bus) {
    |b.received| == 1 && b.channel == Some(b.received[0])
  }

  /** The enqueue loop takes the waiting snapshot out to make room. */
  ghost predicate Drains(b: Bus, e: Event) {
    e.Drain? && b.emitter.Draining?
  }

  /** What the steps of a repeated delivery need of the invariant. */
  ghost predicate Plain(b: Bus) {
    && (b.emitter != Resting ==> b.emitter.v == b.count)
    && (!b.subscribed ==> b.received == [] && b.channel.None?)
  }

  lemma {:induction false} RunPlain(es: seq<Event>)
    ensures Plain(Run(es))
  {
    RunOk(es);
  }

  lemma DoubledStep(b: Bus, e: Event)
    requires Plain(b)
    ensures Doubled(Step(b, e)) ==> (Doubled(b) && !Drains(b, e)) || (e.TrySend? && DrainedEarly(b))
    ensures e.TrySend? && DrainedEarly(b) ==> Doubled(Step(b, e))
    ensures Doubled(b) && !Drains(b, e) ==> Doubled(Step(b, e)) || Repeated(Step(b, e))
    ensures Repeated(Step(b, e)) <==> Repeated(b) || (e.Receive? && Doubled(b))
  {
  }

  /** The event at `k` sends the initial snapshot again. */
  ghost predicate SendsAgain(es: seq<Event>, k: nat) {
    k < |es| && es[k].TrySend? && DrainedEarly(Run(es[..k]))
  }

  ghost predicate DrainsAt(es: seq<Event>, i: nat) {
    i < |es| && Drains(Run(es[..i]), es[i])
  }

  ghost predicate Undrained(es: seq<Event>, k: nat, m: nat) {
    forall i: nat :: k < i < m ==> !DrainsAt(es, i)
  }

  /** A snapshot waits again exactly while it was sent again and neither drained nor received. */
  lemma {:induction false} DoubledSince(es: seq<Event>, m: nat)
    requires m <= |es| && Doubled(Run(es[..m]))
    ensures exists k: nat :: k < m && SendsAgain(es, k) && Undrained(es, k, m)
    decreases m
  {
    assert m > 0;
    var b, e := Run(es[..m - 1]), es[m - 1];
    RunPrefix(es, m);
    RunPlain(es[..m - 1]);
    DoubledStep(b, e);
    if e.TrySend? && DrainedEarly(b) {
      assert SendsAgain(es, m - 1) && Undrained(es, m - 1, m);
    } else {
      DoubledSince(es, m - 1);
      var k: nat :| k < m - 1 && SendsAgain(es, k) && Undrained(es, k, m - 1);
      UndrainedNext(es, k, m);
    }
  }

  lemma {:induction false} UndrainedNext(es: seq<Event>, k: nat, m: nat)
    requires m > 0 && Undrained(es, k, m - 1) && !DrainsAt(es, m - 1)
    ensures Undrained(es, k, m)
  {
  }

  lemma {:induction false} RunPrefix(es: seq<Event>, m: nat)
    requires 0 < m <= |es|
    ensures Run(es[..m]) == Step(Run(es[..m - 1]), es[m - 1])
  {
    assert es[..m][..m - 1] == es[..m - 1];
  }

  /** After `m` events the first snapshot waits again, or was received again. */
  ghost predicate Again(es: seq<Event>, m: nat)
    requires m <= |es|
  {
    Doubled(Run(es[..m])) || Repeated(Run(es[..m]))
  }

  lemma AgainNext(es: seq<Event>, m: nat)
    requires 0 < m <= |es| && (SendsAgain(es, m - 1) || (Again(es, m - 1) && !DrainsAt(es, m - 1)))
    ensures Again(es, m)
  {
    RunPrefix(es, m);
    RunPlain(es[..m - 1]);
    DoubledStep(Run(es[..m - 1]), es[m - 1]);
  }

  lemma {:induction false} SentAgainStays(es: seq<Event>, k: nat, m: nat)
    requires k < m <= |es| && SendsAgain(es, k) && Undrained(es, k, m)
    ensures Again(es, m)
    decreases m
  {
    if m - 1 > k {
      assert !DrainsAt(es, m - 1);
      SentAgainStays(es, k, m - 1);
    }
    AgainNext(es, m);
  }

  /** The snapshot sent again at `k` is received at `m`. */
  ghost predicate TakenAgain(es: seq<Event>, k: nat, m: nat) {
    k < m < |es| && SendsAgain(es, k) && es[m].Receive? && Undrained(es, k, m)
  }

  lemma {:induction false} RepeatedSince(es: seq<Event>, n: nat)
    requires n <= |es| && Repeated(Run(es[..n]))
    ensures exists k, m :: TakenAgain(es, k, m)
    decreases n
  {
    RunPrefix(es, n);
    RunPlain(es[..n - 1]);
    DoubledStep(Run(es[..n - 1]), es[n - 1]);
    if Repeated(Run(es[..n - 1])) {
      RepeatedSince(es, n - 1);
    } else {
      DoubledSince(es, n - 1);
      var k: nat :| k < n - 1 && SendsAgain(es, k) && Undrained(es, k, n - 1);
      assert TakenAgain(es, k, n - 1);
    }
  }

  lemma {:induction false} RepeatedKept(es: seq<Event>, m: nat, n: nat)
    requires m <= n <= |es| && Repeated(Run(es[..m]))
    ensures Repeated(Run(es[..n]))
    decreases n
  {
    if m < n {
      RepeatedKept(es, m, n - 1);
      RunPrefix(es, n);
      RunPlain(es[..n - 1]);
      DoubledStep(Run(es[..n - 1]), es[n - 1]);
    }
  }

  /** Receiving a snapshot twice, exactly: the walk sends the initial snapshot after the subscriber
      received it, and the subscriber receives again before the loop makes room for a newer one. */
  lemma {:induction false} RepeatExact(es: seq<Event>)
    ensures Repeated(Run(es)) <==> exists k, m :: TakenAgain(es, k, m)
  {
    assert es[..|es|] == es;
    if Repeated(Run(es)) {
      RepeatedSince(es, |es|);
    }
    if k: nat, m: nat :| TakenAgain(es, k, m) {
      SentAgainStays(es, k, m);
      RunPrefix(es, m + 1);
      RunPlain(es[..m]);
      DoubledStep(Run(es[..m]), es[m]);
      RepeatedKept(es, m + 1, |es|);
    }
  }

  /** So an overlapping subscription that is drained before the walk reaches it does repeat. */
  lemma {:induction false} DrainedOverlapRepeats(es: seq<Event>)
    requires Run(es).emitter.Ranging? && Run(es).registered && Run(es).received == [Run(es).count]
    ensures Run(es + [Visit] + [TrySend] + [Receive]).received == [Run(es).count, Run(es).count]
  {
    RunOk(es);
    assert Delivered(Run(es))[0] == Run(es).count;
    RunNext(es, Visit);
    RunNext(es + [Visit], TrySend);
    RunNext(es + [Visit] + [TrySend], Receive);
  }

  /** Such runs exist. */
  lemma OverlapRepeats()
    ensures exists es :: Repeated(Run(es))
  {
    RunNext([], Emit);
    RunNext([] + [Emit], Subscribe);
    RunNext([] + [Emit] + [Subscribe], Register);
    RunNext([] + [Emit] + [Subscribe] + [Register], Receive);
    var es := [] + [Emit] + [Subscribe] + [Register] + [Receive];
    assert Run(es).received == [1];
    DrainedOverlapRepeats(es);
    assert Repeated(Run(es + [Visit] + [TrySend] + [Receive]));
  }

  // ---------------------------------------------------------------------------------------
  // The newest snapshot

  /** The step puts a snapshot, or starts putting it, into this subscriber's channel: by joining,
      which starts with the newest one, or because the walk of an emission reached it. */
  ghost predicate Reaches(b: Bus, e: Event) {
    Joins(b, e) || Visits(b, e)
  }

  /** That happened with the snapshot that is the newest now. */
  ghost predicate ReachedByNewest(es: seq<Event>) {
    exists k: nat :: ReachedAt(es, k, Run(es).count)
  }

  ghost predicate ReachedAt(es: seq<Event>, k: nat, count: nat) {
    k < |es| && Reaches(Run(es[..k]), es[k]) && Run(es[..k]).count == count
  }

  lemma {:induction false} ReachedPrefix(es: seq<Event>, e: Event, k: nat, count: nat)
    ensures k < |es| ==> (ReachedAt(es + [e], k, count) <==> ReachedAt(es, k, count))
    ensures ReachedAt(es + [e], |es|, count) <==> Reaches(Run(es), e) && Run(es).count == count
  {
    assert (es + [e])[..|es|] == es;
    if k < |es| { assert (es + [e])[..k] == es[..k]; }
  }

  lemma {:induction false} ReachedNext(es: seq<Event>, e: Event)
    ensures Run(es + [e]).count == Run(es).count ==>
            (ReachedByNewest(es + [e]) <==> ReachedByNewest(es) || Reaches(Run(es), e))
    ensures Run(es + [e]).count != Run(es).count ==> !ReachedByNewest(es + [e])
  {
    RunNext(es, e);
    CountGrows(es, |es|);
    assert es[..|es|] == es;
    var n := Run(es + [e]).count;
    if k: nat :| ReachedAt(es + [e], k, n) {
      ReachedPrefix(es, e, k, n);
      assert k < |es| ==> ReachedAt(es, k, n);
    }
    if n == Run(es).count {
      if k: nat :| ReachedAt(es, k, n) { ReachedPrefix(es, e, k, n); }
      if Reaches(Run(es), e) { ReachedPrefix(es, e, |es|, n); }
    }
  }

  /** What the history `latest` needs of the invariant. */
  ghost predicate Tracked(b: Bus) {
    b.latest <= b.count && (b.emitter.Ranging? ==> b.emitter.v == b.count) && (b.registered ==> b.subscribed)
  }

  lemma LatestNext(b: Bus, e: Event)
    requires Tracked(b)
    ensures var c := Step(b, e);
            && (c.count != b.count ==> !Reaches(b, e) && (c.subscribed ==> c.latest != c.count))
            && (c.count == b.count && c.subscribed && Reaches(b, e) ==> c.latest == c.count)
            && (c.count == b.count && !Reaches(b, e) ==> c.latest == b.latest && c.subscribed == b.subscribed)
            && (!c.subscribed ==> !b.subscribed && !Reaches(b, e))
  {
  }

  lemma {:induction false} LatestExact(es: seq<Event>)
    ensures Run(es).subscribed ==> (Run(es).latest == Run(es).count <==> ReachedByNewest(es))
    ensures !Run(es).subscribed ==> !ReachedByNewest(es)
    decreases |es|
  {
    if es != [] {
      var fs, e := es[..|es| - 1], es[|es| - 1];
      assert es == fs + [e];
      LatestExact(fs);
      RunOk(fs);
      ReachedNext(fs, e);
      LatestNext(Run(fs), e);
    }
  }

  /** Counts only grow, so no earlier state has the count a fresh emission brings. */
  lemma {:induction false} CountGrows(es: seq<Event>, n: nat)
    requires n <= |es|
    ensures forall k :: 0 <= k <= n ==> Run(es[..k]).count <= Run(es[..n]).count
    decreases n
  {
    if n > 0 {
      CountGrows(es, n - 1);
      assert es[..n][..n - 1] == es[..n - 1];
    }
  }

  /** Between emissions a subscriber has, or last received, the newest snapshot exactly if it joined
      when that was the newest already, or the walk of its emission reached it. */
  lemma {:induction false} NewestKeptIff(es: seq<Event>)
    requires Run(es).emitter == Resting && Run(es).subscribed && Run(es).count > 0
    ensures Holds(Run(es), Run(es).count) <==> ReachedByNewest(es)
  {
    RunOk(es);
    LatestExact(es);
  }

  /** The newest snapshot is on its way to the subscriber or was put into its channel. */
  ghost predicate Coming(b: Bus) {
    (b.emitter.Ranging? && b.emitter.must) || b.latest == b.count
  }

  lemma ComingNext(b: Bus, e: Event, n: nat)
    requires BusOk(b) && b.registered && n <= b.count && (b.count > n ==> Coming(b))
    ensures Step(b, e).registered && n <= Step(b, e).count && (Step(b, e).count > n ==> Coming(Step(b, e)))
  {
  }

  lemma {:induction false} EmittedSince(es: seq<Event>, k: nat)
    requires k <= |es| && Run(es[..k]).registered
    ensures Run(es).registered && Run(es[..k]).count <= Run(es).count
    ensures Run(es).count > Run(es[..k]).count ==> Coming(Run(es))
    decreases |es|
  {
    if k == |es| {
      assert es[..k] == es;
    } else {
      var fs := es[..|es| - 1];
      assert fs[..k] == es[..k];
      EmittedSince(fs, k);
      RunOk(fs);
      ComingNext(Run(fs), es[|es| - 1], Run(es[..k]).count);
    }
  }

  /** No emission that starts after the registration is missed. */
  lemma {:induction false} EmissionAfterRegistrationKept(es: seq<Event>, k: nat)
    requires k <= |es| && Run(es[..k]).registered && Run(es).count > Run(es[..k]).count && Run(es).emitter == Resting
    ensures Holds(Run(es), Run(es).count)
  {
    EmittedSince(es, k);
    RunOk(es);
  }

  /** An emission between subscribing and registering can be missed: the subscriber is registered
      and at rest with snapshot 1 while 2 is the newest. */
  lemma EmissionBeforeRegistrationMissed()
    ensures exists es :: var b := Run(es);
              b.registered && b.emitter == Resting && b.count == 2 && b.channel == Some(1) && !Holds(b, 2)
  {
    var e1, e2 := [] + [Emit], [] + [Emit] + [EndRange];
    RunNext([], Emit);
    RunNext(e1, EndRange);
    RunNext(e2, Subscribe);
    var e3 := e2 + [Subscribe];
    RunNext(e3, Emit);
    RunNext(e3 + [Emit], EndRange);
    RunNext(e3 + [Emit] + [EndRange], Register);
    var b := Run(e3 + [Emit] + [EndRange] + [Register]);
    assert Delivered(b) == [1];
  }

  // ---------------------------------------------------------------------------------------
  // The enqueue loop and the contexts

  /** The enqueue loop ends within two passes, whatever the subscriber does: a second pass finds
      the channel empty and its send succeeds. */
  lemma TwoPasses(es: seq<Event>)
    requires Run(es).emitter.Sending? || Run(es).emitter.Draining?
    ensures 1 <= Run(es).emitter.pass <= 2
    ensures Run(es).emitter.Sending? && Run(es).emitter.pass == 2 ==>
              Run(es + [TrySend]).emitter == Resting && Run(es + [TrySend]).channel == Some(Run(es).count)
  {
    RunOk(es);
    RunNext(es, TrySend);
  }

  /** One iteration of the loop: the send succeeds at once if there is room; otherwise the loop makes
      room and the send succeeds in the second pass, the older snapshot being gone. Taking it out finds
      nothing if the subscriber was faster. */
  lemma SendReplaces(b: Bus)
    requires b.emitter.Sending? && b.emitter.pass == 1
    ensures b.channel.None? ==> Step(b, TrySend) == b.(channel := Some(b.emitter.v), emitter := Resting)
    ensures b.channel.Some? ==>
            && Step(b, TrySend) == b.(emitter := Draining(b.emitter.v, 1))
            && Step(Step(b, TrySend), Drain) == b.(channel := None, emitter := Sending(b.emitter.v, 2))
            && Step(Step(Step(b, TrySend), Drain), TrySend)
               == b.(channel := Some(b.emitter.v), emitter := Resting)
            && Step(Step(Step(b, TrySend), Receive), Drain)
               == b.(channel := None, emitter := Sending(b.emitter.v, 2), received := b.received + [b.channel.value])
  {
  }

  /** Exactly the newest snapshot's context is alive. */
  lemma OnlyNewestIsLive(es: seq<Event>, v: nat)
    requires 1 <= v <= Run(es).count
    ensures v !in Run(es).cancelled <==> v == Run(es).count
  {
    RunOk(es);
  }
}
