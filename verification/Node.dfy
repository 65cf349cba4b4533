/**
 The objects of a running node: segments cached over a database, the rewind queue and the chain
 (segment/segment.go, segment/segment_queue.go, segment/segment_store.go, chain/chain.go).
 Every method is proved to take the abstract state exactly where the corresponding function of
 SegmentGraph or ChainModel takes it, and to keep the cache and the database in agreement.
 */
module Node {
  import opened Blocks
  import opened SegmentGraph
  import opened GraphInvariant
  import opened ChainInvariant
  import Model = ChainModel

  /** The persisted part of the chain's own state. */
  datatype ChainRecord = ChainRecord(stateSegment: Option<SegId>, lastHeight: nat, lastRound: nat)

  /** The key-value database: block records, segment states and the chain state. A missing chain
      state reads as the empty one. */
  class Db {
    var records: map<Ref, Record>
    var segs: map<SegId, Seg>
    var chain: ChainRecord

    constructor ()
      ensures records == map[] && segs == map[] && chain == ChainRecord(None, 0, 0)
    {
      records, segs, chain := map[], map[], ChainRecord(None, 0, 0);
    }

    function ReadBlock(r: Ref): Record
      reads this
    {
      if r in records then records[r] else Record(None, None)
    }

    method WriteBlock(r: Ref, record: Record)
      modifies this`records
      ensures records == old(records)[r := record]
    {
      records := records[r := record];
    }

    /** The persisted state as a graph with the given queue. */
    ghost function AsGraph(queue: set<SegId>): Graph
      reads this
    {
      Graph(records, segs, queue)
    }
  }

  /** A segment in memory; `state` mirrors what the database holds under its id. */
  class Segment {
    var state: Seg
    const db: Db

    constructor (db: Db, state: Seg)
      ensures this.db == db && this.state == state
    {
      this.db, this.state := db, state;
    }

    ghost predicate InSync()
      reads this, db
    {
      state.id in db.segs && db.segs[state.id] == state
    }

    method WriteState()
      modifies db`segs
      ensures db.segs == old(db.segs)[state.id := state]
    {
      db.segs := db.segs[state.id := state];
    }

    /** `ok` also covers a block whose header is already the parent's successor. */
    method AppendBlock(env: Env, ref: Ref, parent: Ref, verdict: Verdict, ghost queue: set<SegId>) returns (ok: bool)
      requires InSync() && Known(env, ref) && Known(env, parent)
      modifies this, db`records, db`segs
      ensures InSync() && state.id == old(state.id)
      ensures db.AsGraph(queue) == SegmentGraph.AppendBlock(env, old(db.AsGraph(queue)), old(state.id), ref, parent,
              verdict)
      ensures ok <==> AppendOk(env, old(db.AsGraph(queue)), old(state.id), ref, parent, verdict)
    {
      var parentRecord, blockRecord := db.ReadBlock(parent), db.ReadBlock(ref);
      if parentRecord.next.Some? {
        var next := parentRecord.next.value;
        return next in env.blocks && env.blocks[next] == env.blocks[ref];
      }
      if state.next.Some? {
        return false;
      }
      var v := ValidateChild(env, parent, ref, verdict);
      if v.Refused? {
        return false;
      }
      db.WriteBlock(parent, parentRecord.(next := Some(ref)));
      db.WriteBlock(ref, blockRecord.(segment := parentRecord.segment));
      state := state.(head := ref);
      if v.markValid && state.status != Invalid {
        state := state.(status := Valid);
      }
      WriteState();
      return true;
    }

    method AppendSegment(env: Env, segNext: Segment, verdict: Verdict, ghost queue: set<SegId>) returns (ok: bool)
      requires InSync() && segNext.InSync() && segNext.db == db && segNext.state.id != state.id
      modifies this, segNext, db`segs
      ensures InSync() && segNext.InSync() && state.id == old(state.id) && segNext.state.id == old(segNext.state.id)
      ensures ok == old(segNext.state.status == Disjointed && Known(env, segNext.state.tail) && Known(env, state.head))
      ensures db.AsGraph(queue) ==
              if ok then SegmentGraph.AppendSegment(env, old(db.AsGraph(queue)), old(state.id), old(segNext.state.id),
                verdict)
              else old(db.AsGraph(queue))
    {
      if segNext.state.status != Disjointed || !Known(env, segNext.state.tail) || !Known(env, state.head) {
        return false;
      }
      var v := ValidateChild(env, state.head, segNext.state.tail, verdict);
      if v.Refused? {
        segNext.state := segNext.state.(status := Invalid);
        segNext.WriteState();
        return true;
      }
      if v.markValid && segNext.state.status == Disjointed {
        segNext.state := segNext.state.(status := Valid);
      }
      segNext.state := segNext.state.(status := state.status);
      segNext.state := segNext.state.(prev := Some(state.id));
      segNext.WriteState();
      state := state.(next := Some(segNext.state.id));
      WriteState();
      return true;
    }

    /** The branch of RewindOnce that takes the tail's unowned parent into the segment. */
    method ExtendTail(env: Env, b: Ref, verdict: Verdict, ghost queue: set<SegId>)
      requires InSync() && state.status == Disjointed && Known(env, b) && Known(env, state.tail)
      modifies this, db`records, db`segs
      ensures InSync() && state.id == old(state.id)
      ensures db.AsGraph(queue) == SegmentGraph.ExtendTail(env, old(db.AsGraph(queue)), old(state.id), b, verdict)
    {
      var tail := state.tail;
      db.WriteBlock(b, Record(Some(state.id), Some(tail)));
      state := state.(tail := b, tailHeight := HeaderOf(env, b).height);
      var v := ValidateChild(env, b, tail, verdict);
      if v.Refused? {
        state := state.(status := Invalid);
      }
      if v.Passed? && v.markValid && state.status != Invalid {
        state := state.(status := Valid);
      }
      WriteState();
    }

    method RewindOnce(env: Env, segStore: SegmentStore, fetched: bool, verdict: Verdict) returns (ok: bool)
      requires segStore.Valid() && segStore.Holds(this)
      modifies segStore`segmentMap, segStore.db`records, segStore.db`segs, segStore.segmentMap.Values
      ensures segStore.Valid() && segStore.Holds(this) && state.id == old(state.id)
      ensures segStore.View() == RewindSegment(env, old(segStore.View()), old(state.id), fetched, verdict).graph
      ensures ok == RewindSegment(env, old(segStore.View()), old(state.id), fetched, verdict).ok
      ensures forall k :: k in old(segStore.segmentMap) ==>
              k in segStore.segmentMap && segStore.segmentMap[k] == old(segStore.segmentMap)[k]
      ensures forall k :: k in segStore.segmentMap && k !in old(segStore.segmentMap) ==> fresh(segStore.segmentMap[k])
    {
      ghost var id := state.id;
      assert segStore.Cached(id);
      if state.status != Disjointed {
        return true;
      }
      if !fetched || !Known(env, state.tail) {
        return false;
      }
      var parent := HeaderOf(env, state.tail).lastBlockRef;
      if parent.None? || !Known(env, parent.value) {
        return false;
      }
      var owner := db.ReadBlock(parent.value).segment;
      if owner.None? {
        ExtendTail(env, parent.value, verdict, segStore.Queued());
        forall k | k in segStore.segmentMap ensures segStore.Cached(k) { assert old(segStore.Cached(k)); }
        return true;
      }
      ok := AttachTo(env, segStore, owner.value, verdict);
    }

    /** The branch of RewindOnce that meets the segment which owns the tail's parent. */
    method AttachTo(env: Env, segStore: SegmentStore, owner: SegId, verdict: Verdict) returns (ok: bool)
      requires segStore.Valid() && segStore.Holds(this) && state.status == Disjointed && Known(env, state.tail)
      modifies segStore`segmentMap, segStore.db`segs, segStore.segmentMap.Values
      ensures segStore.Valid() && segStore.Holds(this) && state.id == old(state.id)
      ensures ok == old(owner in segStore.db.segs && owner != state.id && Known(env, segStore.db.segs[owner].head))
      ensures old(state.id) in old(segStore.View()).segs && old(state) == old(segStore.View()).segs[old(state.id)]
      ensures segStore.View() ==
              if ok then SegmentGraph.AppendSegment(env, old(segStore.View()), owner, old(state.id), verdict)
              else old(segStore.View())
      ensures forall k :: k in old(segStore.segmentMap) ==>
              k in segStore.segmentMap && segStore.segmentMap[k] == old(segStore.segmentMap)[k]
      ensures forall k :: k in segStore.segmentMap && k !in old(segStore.segmentMap) ==> fresh(segStore.segmentMap[k])
    {
      ghost var id := state.id;
      assert segStore.Cached(id);
      var prev := segStore.GetSegmentById(owner);
      if prev == null || prev == this {
        return false;
      }
      label spliced:
      assert segStore.Cached(id) && segStore.Cached(owner);
      ok := prev.AppendSegment(env, this, verdict, segStore.Queued());
      forall k | k in segStore.segmentMap ensures segStore.Cached(k) { assert old@spliced(segStore.Cached(k)); }
    }

    method MarkValid()
      requires InSync()
      modifies this, db`segs
      ensures InSync() && state == old(state).(status := Valid)
      ensures db.segs == old(db.segs)[state.id := state]
    {
      if state.status == Valid {
        assert db.segs[state.id := state] == db.segs;
        return;
      }
      state := state.(status := Valid);
      WriteState();
    }
  }

  /** The queue of segments to rewind. */
  class SegmentQueue {
    var pq: seq<Segment>

    constructor ()
      ensures pq == []
    {
      pq := [];
    }

    ghost predicate NoDuplicates()
      reads this
    {
      forall i, j :: 0 <= i < j < |pq| ==> pq[i] != pq[j]
    }

    /** The comparison handed to the heap. It looks at entry `i` twice. */
    predicate Less(i: nat, j: nat)
      requires i < |pq| && j < |pq|
      reads this, pq
      ensures !Less(i, j)
    {
      pq[i].state.tailHeight < pq[i].state.tailHeight
    }

    method Push(seg: Segment)
      requires NoDuplicates()
      modifies this
      ensures NoDuplicates()
      ensures pq == if seg in old(pq) then old(pq) else old(pq) + [seg]
    {
      for i := 0 to |pq|
        invariant pq == old(pq) && seg !in pq[..i]
      {
        if pq[i] == seg {
          return;
        }
      }
      assert pq[..|pq|] == pq;
      pq := pq + [seg];
    }

    /** Since no entry is ever less than another, the heap takes the first entry and puts the last
        one in its place without sifting. */
    method Pop() returns (seg: Segment?)
      requires NoDuplicates()
      modifies this
      ensures NoDuplicates()
      ensures seg == null <==> old(pq) == []
      ensures seg == null ==> pq == old(pq)
      ensures seg != null ==> seg in old(pq) && forall s :: s in pq <==> s in old(pq) && s != seg
    {
      if |pq| == 0 {
        return null;
      }
      seg := pq[0];
      var n := |pq| - 1;
      ghost var before := pq;
      pq := pq[0 := pq[n]][n := pq[0]];
      pq := pq[..n];
      forall s ensures s in pq <==> s in before && s != seg {
        if s in before && s != seg {
          var k :| 0 <= k < |before| && before[k] == s;
          assert pq[if k == n then 0 else k] == s;
        }
      }
    }

    method Remove(seg: Segment)
      requires NoDuplicates()
      modifies this
      ensures NoDuplicates()
      ensures forall s :: s in pq <==> s in old(pq) && s != seg
    {
      for i := 0 to |pq|
        invariant pq == old(pq) && seg !in pq[..i]
      {
        if pq[i] == seg {
          var n := |pq| - 1;
          ghost var before := pq;
          pq := pq[i := pq[n]][n := pq[i]];
          pq := pq[..n];
          forall s ensures s in pq <==> s in before && s != seg {
            if s in before && s != seg {
              var k :| 0 <= k < |before| && before[k] == s;
              assert pq[if k == n then i else k] == s;
            }
          }
          return;
        }
      }
      assert pq[..|pq|] == pq;
    }
  }

  /** Segments by id: one object per segment, loaded on demand. */
  class SegmentStore {
    var segmentMap: map<SegId, Segment>
    const db: Db
    const queue: SegmentQueue

    constructor (db: Db)
      requires forall id :: id in db.segs ==> db.segs[id].id == id
      ensures this.db == db && segmentMap == map[] && Valid() && fresh(queue)
      ensures View() == db.AsGraph({})
    {
      this.db, segmentMap := db, map[];
      queue := new SegmentQueue();
    }

    /** The cached object for `id` mirrors the database. */
    ghost predicate Cached(id: SegId)
      requires id in segmentMap
      reads this, db, segmentMap.Values
    {
      segmentMap[id].db == db && segmentMap[id].state.id == id && segmentMap[id].InSync()
    }

    ghost predicate Valid()
      reads this, db, queue, queue.pq, segmentMap.Values
    {
      && (forall id :: id in db.segs ==> db.segs[id].id == id)
      && (forall id :: id in segmentMap ==> Cached(id))
      && queue.NoDuplicates()
      && (forall s :: s in queue.pq ==> Holds(s))
    }

    /** `seg` is the singleton of its id. */
    ghost predicate Holds(seg: Segment)
      reads this, seg
    {
      seg.state.id in segmentMap && segmentMap[seg.state.id] == seg
    }

    ghost function Queued(): set<SegId>
      reads this, queue
    {
      set id | id in segmentMap && segmentMap[id] in queue.pq
    }

    ghost function View(): Graph
      reads this, db, queue
    {
      db.AsGraph(Queued())
    }

    /** The singleton for a stored id. For an id missing from the database the code makes a blank
        object without head and tail, on which every caller's next lookup fails; it is null here. */
    method GetSegmentById(id: SegId) returns (seg: Segment?)
      requires Valid()
      modifies this`segmentMap
      ensures Valid() && View() == old(View())
      ensures seg == null <==> id !in db.segs
      ensures seg != null ==> id in segmentMap && segmentMap[id] == seg && seg.state == db.segs[id]
      ensures forall k :: k in old(segmentMap) ==> k in segmentMap && segmentMap[k] == old(segmentMap)[k]
      ensures forall k :: k in segmentMap && k !in old(segmentMap) ==> fresh(segmentMap[k])
    {
      if id in segmentMap {
        assert Cached(id);
        return segmentMap[id];
      }
      if id !in db.segs {
        return null;
      }
      seg := new Segment(db, db.segs[id]);
      segmentMap := segmentMap[id := seg];
    }

    /** The first half of NewSegment: the database entries of the segment and of its block. */
    method WriteDraft(env: Env, ref: Ref, id: SegId)
      requires Valid() && Known(env, ref) && id !in db.segs
      modifies db`records, db`segs
      ensures Valid() && id in db.segs
      ensures View() == SegmentGraph.NewSegment(env, old(View()), ref, id).(queue := old(Queued()))
    {
      assert id !in segmentMap by { assert id in segmentMap ==> Cached(id); }
      var draft := new Segment(db, Seg(id, Disjointed, ref, ref, HeaderOf(env, ref).height, None, None));
      draft.WriteState();
      db.WriteBlock(ref, db.ReadBlock(ref).(segment := Some(id)));
      forall k | k in segmentMap ensures Cached(k) { assert old(Cached(k)); }
      assert Queued() == old(Queued());
    }

    /** NewSegment for a block, under the fresh identifier `id`. */
    method NewSegment(env: Env, ref: Ref, id: SegId) returns (seg: Segment)
      requires Valid() && Known(env, ref) && id !in db.segs
      modifies this`segmentMap, db`records, db`segs, queue
      ensures Valid() && View() == SegmentGraph.NewSegment(env, old(View()), ref, id)
      ensures id in segmentMap && segmentMap[id] == seg
    {
      WriteDraft(env, ref, id);
      seg := GetSegmentById(id);
      PushDisjointed(seg);
    }

    /** AppendBlock on the segment that owns the parent. */
    method AppendTo(env: Env, owner: SegId, ref: Ref, parent: Ref, verdict: Verdict) returns (ok: bool)
      requires Valid() && owner in db.segs && Known(env, ref) && Known(env, parent)
      modifies this`segmentMap, db`records, db`segs, segmentMap.Values
      ensures Valid() && View() == AppendBlock(env, old(View()), owner, ref, parent, verdict)
      ensures ok <==> AppendOk(env, old(View()), owner, ref, parent, verdict)
    {
      var seg := GetSegmentById(owner);
      label appending:
      assert Cached(owner);
      ok := seg.AppendBlock(env, ref, parent, verdict, Queued());
      forall k | k in segmentMap ensures Cached(k) { assert old@appending(Cached(k)); }
    }

    method PopNext() returns (seg: Segment?)
      requires Valid()
      modifies queue
      ensures Valid()
      ensures seg == null ==> old(Queued()) == {} && View() == old(View())
      ensures seg != null ==> Holds(seg) && seg.state.id in old(Queued())
      ensures seg != null ==> View() == PopQueue(old(View()), seg.state.id)
    {
      seg := queue.Pop();
      if seg != null {
        forall k ensures k in Queued() <==> k in old(Queued()) && k != seg.state.id {
          assert k in segmentMap ==> old(Cached(k));
        }
        assert Queued() == old(Queued()) - {seg.state.id};
      }
    }

    method PushDisjointed(seg: Segment)
      requires Valid() && Holds(seg)
      modifies queue
      ensures Valid() && View() == PushIfDisjointed(old(View()), seg.state.id)
    {
      assert Cached(seg.state.id);
      if seg.state.status == Disjointed {
        queue.Push(seg);
        forall k ensures k in Queued() <==> k in old(Queued()) || k == seg.state.id {
          assert k in segmentMap ==> old(Cached(k));
        }
        assert Queued() == old(Queued()) + {seg.state.id};
      }
    }

    /** Rewind one queued segment and report to the chain. `pick` is the segment the heap gave up. */
    method RewindOnce(env: Env, handler: Chain, fetched: bool, verdict: Verdict, resolved: bool)
      returns (more: bool, ghost pick: SegId)
      requires handler.store == this && handler.Good(env)
      modifies handler, this`segmentMap, db, queue, segmentMap.Values
      ensures handler.Good(env)
      ensures old(Queued()) == {} ==> !more && handler.View() == old(handler.View())
      ensures old(Queued()) != {} ==>
                && pick in old(Queued()) && pick in old(db.segs)
                && handler.View() == Model.RewindOnce(env, old(handler.View()), pick, fetched, verdict, resolved)
                && more == SegmentGraph.RewindSegment(env, PopQueue(old(View()), pick), pick, fetched, verdict).ok
    {
      var seg := PopNext();
      if seg == null {
        return false, 0;
      }
      pick := seg.state.id;
      StepInv(env, old(handler.View()), Model.Rewind(pick, fetched, verdict, resolved));
      TargetStored(env, old(handler.View()), pick, fetched, verdict);
      more := RewindAndReport(env, handler, seg, fetched, verdict, resolved);
    }

    method RewindAndReport(env: Env, handler: Chain, seg: Segment, fetched: bool, verdict: Verdict, resolved: bool)
      returns (ok: bool)
      requires handler.store == this && handler.Valid() && Holds(seg) && seg.state.id in db.segs
      requires var r := RewindSegment(env, View(), seg.state.id, fetched, verdict);
               RewindTarget(r.graph, seg.state.id) in r.graph.segs
      modifies handler, this`segmentMap, db, queue, segmentMap.Values
      ensures handler.Valid()
      ensures ok == RewindSegment(env, old(View()), old(seg.state.id), fetched, verdict).ok
      ensures handler.View() ==
              Model.ReportRewound(env, old(handler.View()), old(seg.state.id),
                                  RewindSegment(env, old(View()), old(seg.state.id), fetched, verdict), resolved)
    {
      ok := seg.RewindOnce(env, this, fetched, verdict);
      assert Cached(seg.state.id);
      if !ok {
        return;
      }
      var target := seg;
      if seg.state.prev.Some? {
        target := GetSegmentById(seg.state.prev.value);
      }
      handler.HandleSegmentUpdated(env, target, resolved);
      PushDisjointed(target);
    }
  }

  lemma TargetStored(env: Env, c: Model.Chain, pick: SegId, fetched: bool, verdict: Verdict)
    requires Inv(env, c) && pick in c.graph.segs
    ensures var r := RewindSegment(env, PopQueue(c.graph, pick), pick, fetched, verdict);
            RewindTarget(r.graph, pick) in r.graph.segs
  {
    PopRewindShape(env, c.graph, pick, fetched, verdict);
    var g := RewindSegment(env, PopQueue(c.graph, pick), pick, fetched, verdict).graph;
    var paths :| Shape(env, g, paths);
    assert SegAt(env, g, pick, paths);
  }

  /** The chain: the state segment, the head block, the round clock and the last snapshot. */
  class Chain {
    const store: SegmentStore
    var stateSegment: Option<SegId>
    var lastBlock: Option<Ref>
    var lastHeight: nat
    var lastRound: nat
    var lastSnapshot: Option<Model.Snapshot>
    ghost var emitted: seq<Model.Snapshot>

    ghost predicate Valid()
      reads this, store, store.db, store.queue, store.queue.pq, store.segmentMap.Values
    {
      && store.Valid() && store.db.chain.stateSegment == stateSegment
      && lastSnapshot == if emitted == [] then None else Some(emitted[|emitted| - 1])
    }

    ghost function View(): Model.Chain
      reads this, store, store.db, store.queue
    {
      Model.Chain(store.View(), stateSegment, lastBlock, lastHeight, lastRound, emitted)
    }

    ghost predicate Good(env: Env)
      reads this, store, store.db, store.queue, store.queue.pq, store.segmentMap.Values
    {
      Valid() && Inv(env, View())
    }

    /** FromConfig: a node started, or started again, over a database. The chain state is read back;
        the cache, the queue and the head start out empty. */
    constructor FromConfig(env: Env, db: Db)
      requires Inv(env, Stored(db))
      ensures Good(env) && fresh(this) && fresh(store) && store.db == db && View() == Stored(db)
    {
      IdsMatch(env, db.AsGraph({}));
      store := new SegmentStore(db);
      stateSegment, lastHeight, lastRound := db.chain.stateSegment, db.chain.lastHeight, db.chain.lastRound;
      lastBlock, lastSnapshot, emitted := None, None, [];
    }

    /** NewChain, once the genesis block is stored. */
    constructor NewChain(env: Env, genesis: Ref, id: SegId)
      requires Model.Minted(env, genesis)
      ensures Good(env) && View() == Model.NewChain(env, genesis, id)
      ensures store.db.chain == ChainRecord(Some(id), 0, 0)
    {
      var db := new Db();
      store := new SegmentStore(db);
      stateSegment, lastBlock, lastHeight, lastRound, lastSnapshot, emitted := None, None, 0, 0, None, [];
      new;
      assert store.View() == Model.EMPTY.graph;
      Mint(env, genesis, id);
      NewChainInv(env, genesis, id);
    }

    /** The part of NewChain that stores the genesis segment and points the chain at it. */
    method Mint(env: Env, genesis: Ref, id: SegId)
      requires Valid() && View() == Model.EMPTY && Known(env, genesis)
      modifies this, store`segmentMap, store.db, store.queue
      ensures Valid() && View() == Model.NewChain(env, genesis, id)
      ensures store.db.chain == ChainRecord(Some(id), 0, 0)
    {
      var seg := store.NewSegment(env, genesis, id);
      assert store.Cached(id);
      stateSegment := Some(seg.state.id);
      WriteState();
      lastBlock := Some(genesis);
    }

    /** Stopping a node and starting another over its database is the restart step of the model. */
    static method Restart(env: Env, before: Chain) returns (after: Chain)
      requires before.Good(env)
      ensures after.Good(env) && fresh(after) && after.store.db == before.store.db
      ensures var record := before.store.db.chain;
              after.View() == Model.Step(env, before.View(), Model.Restart(record.lastHeight, record.lastRound))
    {
      ghost var record := before.store.db.chain;
      StepInv(env, before.View(), Model.Restart(record.lastHeight, record.lastRound));
      after := new Chain.FromConfig(env, before.store.db);
    }

    method WriteState()
      modifies store.db`chain
      ensures store.db.chain == ChainRecord(stateSegment, lastHeight, lastRound)
    {
      store.db.chain := ChainRecord(stateSegment, lastHeight, lastRound);
    }

    method HandleBlockCommit(env: Env, ref: Ref, id: SegId, verdict: Verdict) returns (ok: bool)
      requires Good(env) && id !in store.db.segs
      modifies store`segmentMap, store.db`records, store.db`segs, store.queue, store.segmentMap.Values
      ensures Good(env) && View() == Model.Step(env, old(View()), Model.Commit(ref, id, verdict))
      ensures ok <==> CommitOk(env, old(View()).graph, ref, verdict)
    {
      StepInv(env, View(), Model.Commit(ref, id, verdict));
      if !Known(env, ref) {
        return false;
      }
      if store.db.ReadBlock(ref).segment.Some? {
        return true;
      }
      var parent := HeaderOf(env, ref).lastBlockRef;
      if parent.None? || !Known(env, parent.value) {
        return false;
      }
      var owner := store.db.ReadBlock(parent.value).segment;
      if owner.Some? {
        OwnerStored(env, View().graph, parent.value);
        ok := store.AppendTo(env, owner.value, ref, parent.value, verdict);
        return;
      }
      var seg := store.NewSegment(env, ref, id);
      ok := true;
    }

    method SetHeadBlock(env: Env, h: Ref)
      requires Known(env, h)
      modifies this, store.db`chain
      ensures View() == Model.SetHeadBlock(env, old(View()), h) && lastSnapshot == old(lastSnapshot)
      ensures store.db.chain == ChainRecord(stateSegment, lastHeight, lastRound)
    {
      lastBlock := Some(h);
      stateSegment := store.db.ReadBlock(h).segment;
      lastHeight := HeaderOf(env, h).height + 1;
      lastRound := 0;
      WriteState();
    }

    /** The handler the segment store calls after a rewind. */
    method HandleSegmentUpdated(env: Env, seg: Segment, resolved: bool)
      requires Valid() && store.Holds(seg)
      modifies this, store.db`segs, store.db`chain, seg
      ensures Valid() && store.Holds(seg) && seg.state.id == old(seg.state.id)
      ensures View() == Model.HandleSegmentUpdated(env, old(View()), old(seg.state.id), resolved)
      ensures store.Queued() == old(store.Queued())
    {
      assert store.Cached(seg.state.id);
      if seg.state.status != Disjointed || lastBlock.Some? || !resolved {
        return;
      }
      if !Known(env, seg.state.head) || !Known(env, seg.state.tail) {
        return;
      }
      var matches := HeaderOf(env, seg.state.tail).chainConfigRef == env.initConfigRef;
      var adopt := matches;
      if seg.state.tailHeight != 0 && !matches {
        var ref := HeaderOf(env, seg.state.head).chainConfigRef;
        adopt := env.initConfigRef in env.configs && ref in env.configs &&
          env.configs[env.initConfigRef].validatorSetRef == env.configs[ref].validatorSetRef;
      }
      if adopt {
        seg.MarkValid();
        forall k | k in store.segmentMap ensures store.Cached(k) { assert old(store.Cached(k)); }
        SetHeadBlock(env, seg.state.head);
      }
    }

    /** The segment manageStateOnce looks at, after the fast-forward over at most one splice. */
    method FastForward() returns (seg: Segment)
      requires Valid() && stateSegment.Some? && stateSegment.value in store.db.segs
      requires Model.Forward(View().graph, stateSegment.value) in store.db.segs
      modifies this`stateSegment, store`segmentMap, store.db`chain
      ensures Valid() && stateSegment.Some?
      ensures View() == old(View()).(stateSegment := Some(Model.Forward(old(View()).graph, old(stateSegment).value)))
      ensures stateSegment.value in store.db.segs && seg.state == store.db.segs[stateSegment.value]
    {
      seg := store.GetSegmentById(stateSegment.value);
      if seg.state.next.Some? {
        seg := store.GetSegmentById(seg.state.next.value);
        stateSegment := Some(seg.state.id);
        WriteState();
      }
    }

    /** The first half of manageStateOnce: fast-forward, then move the head if it can be looked up. */
    method FollowState(env: Env, found: bool)
      requires Valid() && stateSegment.Some? && stateSegment.value in store.db.segs
      requires Model.Forward(View().graph, stateSegment.value) in store.db.segs
      requires SegmentHead(env, View().graph, Model.Forward(View().graph, stateSegment.value))
      modifies this, store`segmentMap, store.db`chain
      ensures Valid()
      ensures var c := Model.FastForward(old(View()));
              var h := old(store.db.segs)[Model.Forward(old(View()).graph, old(stateSegment).value)].head;
              && View() == (if found then Model.AdoptHead(env, c, h) else c)
              && (found ==> lastBlock == Some(h))
    {
      var seg := FastForward();
      if found && lastBlock != Some(seg.state.head) {
        SetHeadBlock(env, seg.state.head);
      }
    }

    /** The fast-forward over one splice, then the head, then the clock; `found` says whether the
        lookup of the head block succeeds. */
    method ManageStateOnce(env: Env, found: bool, now: int, later: int) returns (ok: bool)
      requires Good(env)
      modifies this, store`segmentMap, store.db`chain
      ensures Good(env)
      ensures View() == Model.Step(env, old(View()), if found then Model.Manage(now, later) else Model.Stall)
      ensures ok <==> found && stateSegment.Some? && Model.EmitOk(env, lastBlock, now)
    {
      StepInv(env, View(), if found then Model.Manage(now, later) else Model.Stall);
      if stateSegment.None? {
        return false;
      }
      ForwardInSegs(env, View().graph, stateSegment.value);
      SetHeadOk(env, View(), Model.Forward(View().graph, stateSegment.value));
      FollowState(env, found);
      if !found {
        return false;
      }
      ok := ComputeEmitSnapshot(env, now, later);
    }

    /** The first half of computeEmitSnapshot: the stored height and round, and the configuration the
        clock runs under unless a check fails. */
    method AdvanceClock(env: Env, head: Ref, now: int) returns (config: Option<ChainConfig>)
      requires lastBlock == Some(head) && Known(env, head)
      modifies this`lastHeight, this`lastRound
      ensures View() == Model.Ticked(env, old(View()), now) && config == Model.Clock(env, head, now)
    {
      var header := HeaderOf(env, head);
      if header.height + 1 > lastHeight {
        lastHeight, lastRound := header.height + 1, 0;
      }
      if header.timestamp > now || header.nextChainConfigRef !in env.configs {
        return None;
      }
      var conf := env.configs[header.nextChainConfigRef];
      if conf.roundLength * Model.MILLISECOND < Model.SECOND {
        return None;
      }
      var expected := Model.ExpectedRound(env, head, conf, now);
      if expected > lastRound {
        lastRound := expected;
      }
      config := Some(conf);
    }

    method ComputeEmitSnapshot(env: Env, now: int, later: int) returns (ok: bool)
      requires Valid() && (lastBlock.Some? ==> Known(env, lastBlock.value))
      modifies this
      ensures Valid() && View() == Model.ComputeEmitSnapshot(env, old(View()), now, later)
      ensures ok <==> Model.EmitOk(env, lastBlock, now)
      ensures store.Queued() == old(store.Queued())
    {
      if lastBlock.None? {
        return true;
      }
      var config := AdvanceClock(env, lastBlock.value, now);
      if config.None? || config.value.validatorSetRef !in env.validatorSets {
        return false;
      }
      EmitState(Model.MakeSnapshot(env, lastBlock.value, config.value, lastHeight, lastRound, later));
      ok := true;
    }

    /** Emit a snapshot unless nothing changed since the last one. */
    method EmitState(snap: Model.Snapshot)
      requires Valid()
      modifies this
      ensures Valid() && View() == Model.Emit(old(View()), snap)
    {
      if lastSnapshot.None? || !Model.SameState(lastSnapshot.value, snap) {
        lastSnapshot := Some(snap);
        emitted := emitted + [snap];
      }
    }
  }

  /** The head block of segment `t` is known and carries its id. */
  ghost predicate SegmentHead(env: Env, g: Graph, t: SegId) {
    t in g.segs && Known(env, g.segs[t].head) && Rec(g, g.segs[t].head).segment == Some(t)
  }

  /** The state of a node that starts over a database. */
  ghost function Stored(db: Db): Model.Chain
    reads db
  {
    Model.Chain(db.AsGraph({}), db.chain.stateSegment, None, db.chain.lastHeight, db.chain.lastRound, [])
  }

  lemma IdsMatch(env: Env, g: Graph)
    requires Shaped(env, g)
    ensures forall id :: id in g.segs ==> g.segs[id].id == id
  {
    var paths :| Shape(env, g, paths);
    forall id | id in g.segs ensures g.segs[id].id == id {
      assert SegAt(env, g, id, paths);
    }
  }

  lemma OwnerStored(env: Env, g: Graph, r: Ref)
    requires Shaped(env, g) && Rec(g, r).segment.Some?
    ensures Rec(g, r).segment.value in g.segs
  {
    var paths :| Shape(env, g, paths);
    assert RecordOk(g, r, paths);
  }
}
