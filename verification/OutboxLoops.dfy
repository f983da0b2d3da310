/** The two loops of the outbox code as they run, and the protocol steps they amount to. */
module OutboxLoops {
  import opened Common
  import opened RefreshDb
  import opened RefreshSystem
  import opened RefreshInvariant
  import opened RefreshTheorems

  /** The identifiers that `count` calls of the generator return. */
  function Generated(from: Id, count: nat): (ids: seq<Id>)
    ensures |ids| == count
    ensures forall i :: 0 <= i < count ==> ids[i] == from + i
  {
    seq(count, i requires 0 <= i => from + i)
  }

  function DispatchAll(db: Db, items: seq<Item>): Db
    decreases |items|
  {
    if items == [] then db else DispatchAll(DispatchTx(db, items[0].id, items[0].parent, items[0].intent), items[1..])
  }

  predicate Attempted(db: Db, item: Item) {
    Pending(db, item.id) && ParentOpen(db, item.parent)
  }

  /** An insert that some unique index turns into nothing. */
  predicate Swallowed(db: Db, item: Item) {
    Attempted(db, item) && (item.id in db.jobs || Clash(db.jobs, item.intent))
  }

  function CountAttempted(db: Db, items: seq<Item>): nat
    decreases |items|
  {
    if items == [] then 0
    else (if Attempted(db, items[0]) then 1 else 0)
         + CountAttempted(DispatchTx(db, items[0].id, items[0].parent, items[0].intent), items[1..])
  }

  function CountSwallowed(db: Db, items: seq<Item>): nat
    decreases |items|
  {
    if items == [] then 0
    else (if Swallowed(db, items[0]) then 1 else 0)
         + CountSwallowed(DispatchTx(db, items[0].id, items[0].parent, items[0].intent), items[1..])
  }

  class JobRepository {
    var db: Db
    var nextId: Id

    constructor (db: Db, nextId: Id)
      ensures this.db == db && this.nextId == nextId
    {
      this.db := db;
      this.nextId := nextId;
    }

    /** Queues one intent per partition inside the caller's transaction. */
    method QueueReconciliation(runId: Id, run: RefreshDb.Run)
      modifies this
      ensures db == old(db).(outbox := QueueRun(old(db).outbox, runId, run, Generated(old(nextId), |run.done|)))
      ensures nextId == old(nextId) + (if run.parent.Some? then |run.done| else 0)
    {
      if run.parent.None? {
        return;
      }
      var parent := run.parent.value;
      ghost var ids := Generated(nextId, |run.done|);
      for partition := 0 to |run.done|
        invariant nextId == old(nextId) + partition
        invariant db == old(db).(outbox := db.outbox)
        invariant QueueFrom(db.outbox, parent, runId, partition, |run.done|, ids)
               == QueueFrom(old(db).outbox, parent, runId, 0, |run.done|, ids)
      {
        db := db.(outbox := InsertEntry(db.outbox, nextId, Entry(parent, Partition(runId, partition), false)));
        nextId := nextId + 1;
      }
    }

    /** Dispatches the rows that the second query of dispatch_outbox returned.  Rows that another
        transaction holds locked are skipped; a database error ends the call at that row and keeps
        what was committed before.  The count includes inserts that an index swallowed. */
    method DispatchEntries(entries: seq<Item>, locked: set<nat>, failAt: nat) returns (dispatched: Option<nat>)
      modifies this`db
      ensures dispatched.None? <==> failAt < |entries|
      ensures db == DispatchAll(old(db), Visible(entries, locked, if failAt < |entries| then failAt else |entries|))
      ensures dispatched.Some? ==> dispatched.value == CountAttempted(old(db), Visible(entries, locked, |entries|))
    {
      hide DispatchAll, CountAttempted, DispatchTx;
      var count: nat := 0;
      DispatchNone(db);
      for i := 0 to |entries|
        invariant i <= failAt && db == DispatchAll(old(db), Visible(entries, locked, i))
        invariant count == CountAttempted(old(db), Visible(entries, locked, i))
      {
        if i == failAt {
          return None;
        }
        var Item(id, parent, intent) := entries[i];
        DispatchSnoc(old(db), Visible(entries, locked, i), entries[i]);
        assert i in locked ==> Visible(entries, locked, i + 1) == Visible(entries, locked, i);
        if i in locked || !Pending(db, id) {
          NothingPending(db, entries[i]);
          continue;
        }
        if ParentOpen(db, parent) {
          count := count + 1;
        }
        db := DispatchTx(db, id, parent, intent);
      }
      return Some(count);
    }
  }

  /** The first `n` rows without those that are skipped as locked. */
  function Visible(entries: seq<Item>, locked: set<nat>, n: nat): seq<Item>
    requires n <= |entries|
  {
    if n == 0 then [] else Visible(entries, locked, n - 1) + if n - 1 in locked then [] else [entries[n - 1]]
  }

  lemma DispatchNone(db: Db)
    ensures DispatchAll(db, []) == db && CountAttempted(db, []) == 0
  {
  }

  lemma NothingPending(db: Db, item: Item)
    ensures !Pending(db, item.id) ==> DispatchTx(db, item.id, item.parent, item.intent) == db && !Attempted(db, item)
  {
  }

  lemma {:induction false} DispatchSnoc(db: Db, items: seq<Item>, item: Item)
    ensures DispatchAll(db, items + [item]) == DispatchTx(DispatchAll(db, items), item.id, item.parent, item.intent)
    ensures CountAttempted(db, items + [item]) == CountAttempted(db, items) + if Attempted(DispatchAll(db, items), item) then 1 else 0
    decreases |items|
  {
    hide DispatchTx, Attempted;
    if items == [] {
      assert items + [item] == [item] && [item][1..] == [];
    } else {
      assert (items + [item])[1..] == items[1..] + [item];
      DispatchSnoc(DispatchTx(db, items[0].id, items[0].parent, items[0].intent), items[1..], item);
    }
  }

  /** Each counted dispatch adds one job unless an index swallowed its insert. */
  lemma {:induction false} DispatchCountsJobs(db: Db, items: seq<Item>)
    ensures |DispatchAll(db, items).jobs| + CountSwallowed(db, items) == |db.jobs| + CountAttempted(db, items)
    decreases |items|
  {
    if items != [] {
      var next := DispatchTx(db, items[0].id, items[0].parent, items[0].intent);
      DispatchCountsJobs(next, items[1..]);
      if Attempted(db, items[0]) && !Swallowed(db, items[0]) {
        var job := Child(items[0].parent, items[0].intent, JobStatus.Queued, false);
        assert next.jobs == db.jobs[items[0].id := job];
        assert next.jobs.Keys == db.jobs.Keys + {items[0].id};
      }
    }
  }

  /** What one worker does when no other step comes between. */
  ghost function RunWorker(s: System, w: Id): System
    requires w in s.workers && s.workers[w].Dispatching?
    decreases |s.workers[w].todo|
  {
    if s.workers[w].todo == [] then s else RunWorker(After(s, DispatchOne(w)), w)
  }

  /** The dispatch loop is a run of protocol steps, so it keeps the protocol's invariant. */
  lemma {:induction false} DispatchLoopIsRun(s: System, w: Id)
    requires Inv(s) && w in s.workers && s.workers[w].Dispatching?
    ensures RunWorker(s, w).db == DispatchAll(s.db, s.workers[w].todo) && Inv(RunWorker(s, w))
    decreases |s.workers[w].todo|
  {
    if s.workers[w].todo != [] {
      StepKeeps(s, DispatchOne(w));
      hide Inv;
      DispatchLoopIsRun(After(s, DispatchOne(w)), w);
    }
  }
}
