/** Steps that add or remove rows keep the invariant. */
module RefreshQueueing {
  import opened Common
  import opened RefreshDb
  import opened RefreshSystem
  import opened RefreshInvariant

  // ------------------------------------------------------------- insertion

  /** What an intent must satisfy to be queued. */
  ghost predicate Queueable(db: Db, used: set<Id>, e: Entry) {
    && !e.dispatched
    && IsRefresh(db, e.parent)
    && Subject(e.intent) in used
    && SameSource(db, e.parent, e.intent)
    && (e.intent.Partition? && e.intent.run in db.runs ==> e.intent.number < |db.runs[e.intent.run].done|)
    && (!e.intent.Prepare? && ParentOpen(db, e.parent) && Detached(db, e.intent.run, e.parent) ==>
          Holder(db.outbox, e.intent.run, e.parent))
  }

  function Inserted(db: Db, id: Id, e: Entry): Db {
    db.(outbox := InsertEntry(db.outbox, id, e))
  }

  lemma InsertRows(db: Db, used: set<Id>, id: Id, e: Entry, used': set<Id>)
    requires Bounded(db, used) && Parents(db) && KeysUnique(db.outbox)
    requires id !in used && used + {id} <= used' && Queueable(db, used', e)
    ensures var db' := Inserted(db, id, e); Bounded(db', used') && Parents(db') && KeysUnique(db'.outbox)
  {
  }

  lemma InsertOwned(db: Db, used: set<Id>, id: Id, e: Entry)
    requires RunsOwned(db) && EntriesOwned(db) && InRange(db)
    requires id !in db.outbox && Queueable(db, used, e)
    ensures var db' := Inserted(db, id, e); RunsOwned(db') && EntriesOwned(db') && InRange(db')
  {
  }

  lemma InsertHolders(db: Db, id: Id, e: Entry)
    requires id !in db.outbox && Holders(db) && !e.dispatched
    requires !e.intent.Prepare? && ParentOpen(db, e.parent) && Detached(db, e.intent.run, e.parent) ==>
               Holder(db.outbox, e.intent.run, e.parent)
    ensures Holders(Inserted(db, id, e))
  {
    var db' := Inserted(db, id, e);
    forall k | k in db'.outbox && !db'.outbox[k].intent.Prepare? && ParentOpen(db', db'.outbox[k].parent)
               && Detached(db', db'.outbox[k].intent.run, db'.outbox[k].parent)
      ensures Holder(db'.outbox, db'.outbox[k].intent.run, db'.outbox[k].parent)
    {
      var p, r := db'.outbox[k].parent, db'.outbox[k].intent.run;
      assert ParentOpen(db, p) && Detached(db, r, p);
      assert Holder(db.outbox, r, p);
      var h :| h in db.outbox && db.outbox[h] == Entry(p, Finalize(r), true);
      assert db'.outbox[h] == Entry(p, Finalize(r), true);
    }
  }

  lemma InsertJobsKept(db: Db, used: set<Id>, id: Id, e: Entry)
    requires db.jobs.Keys <= used && id !in used && JobsMatch(db)
    ensures JobsMatch(Inserted(db, id, e))
  {
  }

  lemma InsertKept(db: Db, used: set<Id>, id: Id, e: Entry, used': set<Id>)
    requires id !in used && used <= used'
    ensures Kept(db, used, Inserted(db, id, e), used')
  {
  }

  lemma InsertSpent(db: Db, id: Id, e: Entry)
    requires JobsSpent(db) && id !in db.outbox
    ensures JobsSpent(Inserted(db, id, e))
  {
    SpentFrame(db, Inserted(db, id, e));
  }

  lemma InsertCore(db: Db, used: set<Id>, id: Id, e: Entry, used': set<Id>)
    requires DbCore(db, used) && id !in used && used + {id} <= used' && Queueable(db, used', e)
    ensures DbCore(Inserted(db, id, e), used') && Kept(db, used, Inserted(db, id, e), used')
  {
    assert id !in db.outbox && db.jobs.Keys <= used;
    hide Bounded, Parents, OneOpenRefresh, RunsOwned, EntriesOwned, KeysUnique, JobsMatch, OneJobPerIntent;
    hide OneOpenJob, InRange, Holders, Locks, Repeats, JobsSpent, Kept, InsertEntry;
    InsertRows(db, used, id, e, used');
    InsertOwned(db, used', id, e);
    InsertHolders(db, id, e);
    InsertJobsKept(db, used, id, e);
    InsertKept(db, used, id, e, used');
    InsertSpent(db, id, e);
    JobsFrame(db, Inserted(db, id, e));
  }

  /** Dispatched entries of open parents stay, and no job is added. */
  lemma SpentFrame(db: Db, db': Db)
    requires JobsSpent(db) && db'.jobs == db.jobs
    requires forall e :: e in db.outbox && db.outbox[e].dispatched && ParentOpen(db, db.outbox[e].parent) ==>
               e in db'.outbox && db'.outbox[e] == db.outbox[e]
    ensures JobsSpent(db')
  {
    forall j | IsChild(db', j) && ParentOpen(db', db'.jobs[j].parent)
      ensures Spent(db'.outbox, db'.jobs[j].parent, db'.jobs[j].work)
    {
      assert IsChild(db, j) && ParentOpen(db, db.jobs[j].parent);
      var e :| e in db.outbox && db.outbox[e] == Entry(db.jobs[j].parent, db.jobs[j].work, true);
      assert db'.outbox[e] == db.outbox[e];
    }
  }

  lemma JobsFrame(db: Db, db': Db)
    requires OneOpenRefresh(db) && OneJobPerIntent(db) && OneOpenJob(db) && Locks(db) && Repeats(db)
    requires db'.jobs == db.jobs && db'.replays == db.replays
    ensures OneOpenRefresh(db') && OneJobPerIntent(db') && OneOpenJob(db') && Locks(db') && Repeats(db')
  {
  }

  lemma InsertQueued(db: Db, id: Id, e: Entry)
    requires AllQueued(db) && id !in db.outbox
    ensures AllQueued(Inserted(db, id, e))
  {
    var db' := Inserted(db, id, e);
    forall key | KeyTaken(db.outbox, key) ensures KeyTaken(db'.outbox, key) {
      var k :| k in db.outbox && Key(db.outbox[k]) == key;
      assert db'.outbox[k] == db.outbox[k];
    }
  }

  lemma KeptTrans(a: Db, ua: set<Id>, b: Db, ub: set<Id>, c: Db, uc: set<Id>)
    requires Kept(a, ua, b, ub) && Kept(b, ub, c, uc)
    ensures Kept(a, ua, c, uc)
  {
  }

  // --------------------------------------------------------------- queueing

  function Queue(db: Db, parent: Id, run: Id, n: nat, count: nat, ids: seq<Id>): Db
    requires n <= count <= |ids|
  {
    db.(outbox := QueueFrom(db.outbox, parent, run, n, count, ids))
  }

  ghost predicate RunReady(db: Db, used: set<Id>, parent: Id, run: Id, count: nat) {
    && IsRefresh(db, parent) && run in used && run in db.runs
    && db.runs[run].parent == Some(parent) && db.runs[run].status.Processing? && count == |db.runs[run].done|
    && db.runs[run].account == db.jobs[parent].source
  }

  lemma ReadyQueueable(db: Db, used: set<Id>, parent: Id, run: Id, n: nat, count: nat)
    requires RunReady(db, used, parent, run, count) && n < count
    ensures Queueable(db, used, Entry(parent, Partition(run, n), false))
  {
  }

  lemma QueueOne(db: Db, used: set<Id>, parent: Id, run: Id, n: nat, count: nat, id: Id)
    requires DbCore(db, used) && RunReady(db, used, parent, run, count) && n < count && id !in used
    ensures var next := Inserted(db, id, Entry(parent, Partition(run, n), false));
            && DbCore(next, used + {id}) && Kept(db, used, next, used + {id})
            && RunReady(next, used + {id}, parent, run, count)
  {
    ReadyQueueable(db, used + {id}, parent, run, n, count);
    InsertCore(db, used, id, Entry(parent, Partition(run, n), false), used + {id});
  }

  lemma {:induction false} QueueCore(db: Db, used: set<Id>, parent: Id, run: Id, n: nat, count: nat, ids: seq<Id>)
    requires DbCore(db, used) && n <= count <= |ids|
    requires RunReady(db, used, parent, run, count)
    requires Distinct(ids) && forall i :: n <= i < |ids| ==> ids[i] !in used
    ensures DbCore(Queue(db, parent, run, n, count, ids), used + Ids(ids))
    ensures Kept(db, used, Queue(db, parent, run, n, count, ids), used + Ids(ids))
    decreases count - n
  {
    hide DbCore, Kept, RunReady;
    if n == count {
      CoreWiden(db, used, used + Ids(ids));
    } else {
      var next := Inserted(db, ids[n], Entry(parent, Partition(run, n), false));
      var used' := used + {ids[n]};
      QueueOne(db, used, parent, run, n, count, ids[n]);
      QueueCore(next, used', parent, run, n + 1, count, ids);
      assert used' + Ids(ids) == used + Ids(ids);
      KeptTrans(db, used, next, used', Queue(db, parent, run, n, count, ids), used + Ids(ids));
    }
  }

  lemma CoreWiden(db: Db, used: set<Id>, used': set<Id>)
    requires DbCore(db, used) && used <= used'
    ensures DbCore(db, used') && Kept(db, used, db, used')
  {
  }

  lemma {:induction false} QueueTakes(outbox: map<Id, Entry>, parent: Id, run: Id, n: nat, count: nat, ids: seq<Id>)
    requires n <= count <= |ids| && Distinct(ids) && forall i :: n <= i < |ids| ==> ids[i] !in outbox
    ensures forall k :: k in outbox ==>
              k in QueueFrom(outbox, parent, run, n, count, ids) && QueueFrom(outbox, parent, run, n, count, ids)[k] == outbox[k]
    ensures forall m: nat :: n <= m < count ==>
              KeyTaken(QueueFrom(outbox, parent, run, n, count, ids), PartitionKey(parent, run, m))
    decreases count - n
  {
    if n < count {
      var e := Entry(parent, Partition(run, n), false);
      var next := InsertEntry(outbox, ids[n], e);
      QueueTakes(next, parent, run, n + 1, count, ids);
      var all := QueueFrom(outbox, parent, run, n, count, ids);
      assert KeyTaken(next, Key(e)) by {
        if !KeyTaken(outbox, Key(e)) {
          assert Key(next[ids[n]]) == Key(e);
        }
      }
      var k :| k in next && Key(next[k]) == Key(e);
      assert Key(all[k]) == PartitionKey(parent, run, n);
    }
  }

  // ------------------------------------------------------------ preparation

  /** Puts a run into the tables: a new one, or an ended one rebuilt. */
  ghost predicate MayPut(db: Db, used: set<Id>, runId: Id, run: RefreshDb.Run) {
    && run.parent.Some? && IsRefresh(db, run.parent.value)
    && run.account == db.jobs[run.parent.value].source
    && run.snapshot in db.snapshots && db.snapshots[run.snapshot].account == run.account
    && run.status.Processing? && |run.done| <= MAX_PARTITIONS
    && (runId in db.runs ==>
          && (db.runs[runId].status.Published? || db.runs[runId].status.RunFailed?)
          && run.account == db.runs[runId].account && |run.done| == |db.runs[runId].done|)
    && (runId !in db.runs ==> runId !in used)
  }

  function Put(db: Db, runId: Id, run: RefreshDb.Run): Db {
    db.(runs := db.runs[runId := run])
  }

  lemma PutRows(db: Db, used: set<Id>, runId: Id, run: RefreshDb.Run)
    requires Bounded(db, used) && Parents(db) && RunsOwned(db) && MayPut(db, used, runId, run)
    ensures var db' := Put(db, runId, run); Bounded(db', used + {runId}) && Parents(db') && RunsOwned(db')
  {
  }

  lemma PutOwned(db: Db, used: set<Id>, runId: Id, run: RefreshDb.Run)
    requires Bounded(db, used) && EntriesOwned(db) && InRange(db) && MayPut(db, used, runId, run)
    ensures var db' := Put(db, runId, run); EntriesOwned(db') && InRange(db')
  {
  }

  lemma PutHolders(db: Db, used: set<Id>, runId: Id, run: RefreshDb.Run)
    requires Bounded(db, used) && Holders(db) && JobsMatch(db) && MayPut(db, used, runId, run)
    ensures Holders(Put(db, runId, run)) && JobsMatch(Put(db, runId, run))
  {
  }

  /** A finalizer that some dispatcher still may dispatch keeps its run from being rebuilt. */
  lemma NoPendingFinalizer(db: Db, runId: Id, id: Id)
    requires KeysUnique(db.outbox) && Holders(db)
    requires runId in db.runs && (db.runs[runId].status.Published? || db.runs[runId].status.RunFailed?)
    requires id in db.outbox && db.outbox[id].intent == Finalize(runId) && ParentOpen(db, db.outbox[id].parent)
    ensures db.outbox[id].dispatched
  {
    var p := db.outbox[id].parent;
    assert Detached(db, runId, p);
    var h :| h in db.outbox && db.outbox[h] == Entry(p, Finalize(runId), true);
    assert Key(db.outbox[h]) == Key(db.outbox[id]);
  }

  lemma PutItem(db: Db, used: set<Id>, runId: Id, run: RefreshDb.Run, item: Item)
    requires KeysUnique(db.outbox) && Holders(db) && MayPut(db, used, runId, run) && ItemOk(db, used, item)
    ensures ItemOk(Put(db, runId, run), used + {runId}, item)
  {
    if item.intent.Finalize? && item.intent.run == runId && runId in db.runs && Pending(db, item.id) && ParentOpen(db, item.parent) {
      NoPendingFinalizer(db, runId, item.id);
    }
  }

  lemma PutCore(db: Db, used: set<Id>, runId: Id, run: RefreshDb.Run)
    requires DbCore(db, used) && MayPut(db, used, runId, run)
    ensures DbCore(Put(db, runId, run), used + {runId}) && Kept(db, used, Put(db, runId, run), used + {runId})
    ensures RunReady(Put(db, runId, run), used + {runId}, run.parent.value, runId, |run.done|)
  {
    hide Bounded, Parents, OneOpenRefresh, RunsOwned, EntriesOwned, KeysUnique, JobsMatch, OneJobPerIntent;
    hide OneOpenJob, InRange, Holders, Locks, Repeats, JobsSpent, AllQueued, ItemOk;
    var db' := Put(db, runId, run);
    PutRows(db, used, runId, run);
    PutOwned(db, used, runId, run);
    PutHolders(db, used, runId, run);
    JobsFrame(db, db');
    SpentFrame(db, db');
    forall item | ItemOk(db, used, item) ensures ItemOk(db', used + {runId}, item) {
      PutItem(db, used, runId, run, item);
    }
  }

  /** All intents are queued after a run that was put, or reloaded, is queued. */
  lemma QueueAll(db: Db, used: set<Id>, parent: Id, run: Id, count: nat, ids: seq<Id>)
    requires db.outbox.Keys <= used && count <= |ids|
    requires RunReady(db, used, parent, run, count)
    requires Distinct(ids) && forall i :: 0 <= i < |ids| ==> ids[i] !in used
    requires AllQueued(db.(runs := db.runs - {run}))
    ensures AllQueued(Queue(db, parent, run, 0, count, ids))
  {
    QueueTakes(db.outbox, parent, run, 0, count, ids);
    var db' := Queue(db, parent, run, 0, count, ids);
    var rest := db.(runs := db.runs - {run});
    forall r, n: nat | r in db'.runs && db'.runs[r].parent.Some? && ParentOpen(db', db'.runs[r].parent.value)
                       && n < |db'.runs[r].done|
      ensures KeyTaken(db'.outbox, PartitionKey(db'.runs[r].parent.value, r, n))
    {
      if r != run {
        assert r in rest.runs && ParentOpen(rest, rest.runs[r].parent.value);
        assert KeyTaken(rest.outbox, PartitionKey(rest.runs[r].parent.value, r, n));
        var k :| k in db.outbox && Key(db.outbox[k]) == PartitionKey(db.runs[r].parent.value, r, n);
        assert db'.outbox[k] == db.outbox[k];
      }
    }
  }

  lemma DropRunQueued(db: Db, run: Id)
    requires AllQueued(db)
    ensures AllQueued(db.(runs := db.runs - {run}))
  {
    var db' := db.(runs := db.runs - {run});
    forall r, n: nat | r in db'.runs && db'.runs[r].parent.Some? && ParentOpen(db', db'.runs[r].parent.value)
                       && n < |db'.runs[r].done|
      ensures KeyTaken(db'.outbox, PartitionKey(db'.runs[r].parent.value, r, n))
    {
      assert ParentOpen(db, db.runs[r].parent.value);
    }
  }

  lemma QueueInv(db: Db, used: set<Id>, parent: Id, run: Id, count: nat, ids: seq<Id>)
    requires DbCore(db, used) && AllQueued(db.(runs := db.runs - {run}))
    requires RunReady(db, used, parent, run, count) && count <= |ids|
    requires Distinct(ids) && forall i :: 0 <= i < |ids| ==> ids[i] !in used
    ensures var db' := Queue(db, parent, run, 0, count, ids);
            DbInv(db', used + Ids(ids)) && Kept(db, used, db', used + Ids(ids))
  {
    hide AllQueued, Kept, RunReady;
    QueueCore(db, used, parent, run, 0, count, ids);
    QueueAll(db, used, parent, run, count, ids);
  }

  lemma RebuildMayPut(db: Db, used: set<Id>, runId: Id, parent: Id)
    requires Bounded(db, used) && RunsOwned(db) && runId in db.runs
    requires db.runs[runId].status.Published? || db.runs[runId].status.RunFailed?
    requires IsRefresh(db, parent) && db.runs[runId].account == db.jobs[parent].source
    ensures var prior := db.runs[runId];
            MayPut(db, used, runId, prior.(status := Processing, parent := Some(parent), done := seq(|prior.done|, _ => false)))
  {
  }

  lemma ReloadReady(db: Db, used: set<Id>, runId: Id)
    requires Bounded(db, used) && Parents(db) && RunsOwned(db) && runId in db.runs
    ensures runId in used && |db.runs[runId].done| <= MAX_PARTITIONS
    ensures db.runs[runId].status.Processing? && db.runs[runId].parent.Some? ==>
              RunReady(db, used, db.runs[runId].parent.value, runId, |db.runs[runId].done|)
  {
  }

  lemma ReloadKeeps(db: Db, used: set<Id>, runId: Id, parent: Id, newRun: Id, ids: seq<Id>)
    requires DbInv(db, used) && runId in db.runs && !db.runs[runId].status.RunCancelled?
    requires IsRefresh(db, parent) && db.runs[runId].account == db.jobs[parent].source
    requires FreshIds(used, newRun, ids) && |ids| >= MAX_PARTITIONS && |db.runs[runId].done| <= MAX_PARTITIONS
    ensures var db' := ReloadRun(db, runId, parent, ids); var used' := used + {newRun} + Ids(ids);
            DbInv(db', used') && Kept(db, used, db', used')
  {
    hide Bounded, Parents, OneOpenRefresh, RunsOwned, EntriesOwned, KeysUnique, JobsMatch, OneJobPerIntent;
    hide OneOpenJob, InRange, Holders, Locks, Repeats, JobsSpent, AllQueued, ItemOk, Kept;
    var prior := db.runs[runId];
    var used1 := used + {newRun};
    var used' := used1 + Ids(ids);
    ReloadReady(db, used, runId);
    DropRunQueued(db, runId);
    if prior.status.Processing? {
      assert db.runs[runId := prior] == db.runs;
      CoreWiden(db, used, used1);
      if prior.parent.Some? {
        QueueInv(db, used1, prior.parent.value, runId, |prior.done|, ids);
        KeptTrans(db, used, db, used1, ReloadRun(db, runId, parent, ids), used');
      } else {
        CoreWiden(db, used, used');
      }
    } else {
      var run := prior.(status := Processing, parent := Some(parent), done := seq(|prior.done|, _ => false));
      var mid := Put(db, runId, run);
      RebuildMayPut(db, used, runId, parent);
      PutReload(db, used, runId, run, newRun);
      assert mid.(runs := mid.runs - {runId}) == db.(runs := db.runs - {runId});
      QueueInv(mid, used1, parent, runId, |run.done|, ids);
      KeptTrans(db, used, mid, used1, ReloadRun(db, runId, parent, ids), used');
    }
  }

  lemma PutReload(db: Db, used: set<Id>, runId: Id, run: RefreshDb.Run, newRun: Id)
    requires DbCore(db, used) && MayPut(db, used, runId, run) && runId in used
    ensures var mid := Put(db, runId, run);
            && DbCore(mid, used + {newRun}) && Kept(db, used, mid, used + {newRun})
            && RunReady(mid, used + {newRun}, run.parent.value, runId, |run.done|)
  {
    hide DbCore, Kept, MayPut;
    var mid := Put(db, runId, run);
    PutCore(db, used, runId, run);
    assert used + {runId} == used;
    CoreWiden(mid, used, used + {newRun});
    KeptTrans(db, used, mid, used, mid, used + {newRun});
  }

  lemma FreshRun(db: Db, used: set<Id>, runId: Id)
    requires Bounded(db, used) && runId !in used
    ensures runId !in db.runs
  {
  }

  lemma CreateKeeps(db: Db, used: set<Id>, snapshot: Id, parent: Id, requested: int, runId: Id, stamp: nat, ids: seq<Id>)
    requires DbInv(db, used) && snapshot in db.snapshots
    requires IsRefresh(db, parent) && db.snapshots[snapshot].account == db.jobs[parent].source
    requires FreshIds(used, runId, ids) && |ids| >= MAX_PARTITIONS
    ensures var db' := CreateRun(db, snapshot, parent, requested, runId, stamp, ids); var used' := used + {runId} + Ids(ids);
            DbInv(db', used') && Kept(db, used, db', used')
  {
    hide Bounded, Parents, OneOpenRefresh, RunsOwned, EntriesOwned, KeysUnique, JobsMatch, OneJobPerIntent;
    hide OneOpenJob, InRange, Holders, Locks, Repeats, JobsSpent, AllQueued, ItemOk, Kept;
    var run := Run(db.snapshots[snapshot].account, snapshot, Some(parent), Processing, stamp,
                   seq(Clamp(requested), _ => false));
    var mid := Put(db, runId, run);
    FreshRun(db, used, runId);
    PutCore(db, used, runId, run);
    assert mid.(runs := mid.runs - {runId}) == db.(runs := db.runs - {runId});
    DropRunQueued(db, runId);
    QueueInv(mid, used + {runId}, parent, runId, |run.done|, ids);
    KeptTrans(db, used, mid, used + {runId}, CreateRun(db, snapshot, parent, requested, runId, stamp, ids),
              used + {runId} + Ids(ids));
  }

  // --------------------------------------------------------------- dispatch

  lemma MarkOutbox(db: Db, used: set<Id>, id: Id)
    requires Bounded(db, used) && Parents(db) && RunsOwned(db) && EntriesOwned(db) && KeysUnique(db.outbox)
    requires InRange(db)
    ensures var db' := MarkDispatched(db, id);
            && Bounded(db', used) && Parents(db') && RunsOwned(db') && EntriesOwned(db') && KeysUnique(db'.outbox)
            && InRange(db')
  {
  }

  lemma MarkHolders(db: Db, id: Id)
    requires Holders(db)
    ensures Holders(MarkDispatched(db, id))
  {
    var db' := MarkDispatched(db, id);
    forall k | k in db'.outbox && !db'.outbox[k].intent.Prepare? && ParentOpen(db', db'.outbox[k].parent)
               && Detached(db', db'.outbox[k].intent.run, db'.outbox[k].parent)
      ensures Holder(db'.outbox, db'.outbox[k].intent.run, db'.outbox[k].parent)
    {
      var p, r := db'.outbox[k].parent, db'.outbox[k].intent.run;
      assert ParentOpen(db, p) && Detached(db, r, p);
      assert Holder(db.outbox, r, p);
      var h :| h in db.outbox && db.outbox[h] == Entry(p, Finalize(r), true);
      assert db'.outbox[h] == Entry(p, Finalize(r), true);
    }
  }

  lemma MarkQueued(db: Db, id: Id)
    requires AllQueued(db)
    ensures AllQueued(MarkDispatched(db, id))
  {
    var db' := MarkDispatched(db, id);
    forall key | KeyTaken(db.outbox, key) ensures KeyTaken(db'.outbox, key) {
      var k :| k in db.outbox && Key(db.outbox[k]) == key;
      assert Key(db'.outbox[k]) == key;
    }
  }

  lemma MarkKeeps(db: Db, used: set<Id>, id: Id)
    requires DbInv(db, used)
    ensures DbInv(MarkDispatched(db, id), used) && Kept(db, used, MarkDispatched(db, id), used)
  {
    hide Bounded, Parents, OneOpenRefresh, RunsOwned, EntriesOwned, KeysUnique, JobsMatch, OneJobPerIntent;
    hide OneOpenJob, InRange, Holders, Locks, Repeats, JobsSpent, AllQueued, ItemOk;
    MarkOutbox(db, used, id);
    MarkHolders(db, id);
    MarkQueued(db, id);
    MarkRest(db, used, id);
    JobsFrame(db, MarkDispatched(db, id));
    SpentFrame(db, MarkDispatched(db, id));
  }

  lemma MarkRest(db: Db, used: set<Id>, id: Id)
    requires JobsMatch(db)
    ensures JobsMatch(MarkDispatched(db, id)) && Kept(db, used, MarkDispatched(db, id), used)
  {
  }

  // ------------------------------------------------------ the job of an entry

  function WithJob(db: Db, id: Id, parent: Id, work: Intent): Db {
    db.(jobs := db.jobs[id := Child(parent, work, JobStatus.Queued, false)])
  }

  /** The guard of a dispatch that adds a job, once its entry is marked. */
  ghost predicate MayAdd(db: Db, used: set<Id>, id: Id, parent: Id, work: Intent) {
    && id in db.outbox && db.outbox[id] == Entry(parent, work, true)
    && !work.Prepare? && id !in db.jobs && id !in db.replays && id in used
    && ParentOpen(db, parent) && IsRefresh(db, parent) && !Clash(db.jobs, work)
  }

  lemma AddParents(db: Db, used: set<Id>, id: Id, parent: Id, work: Intent)
    requires Bounded(db, used) && Parents(db) && OneOpenRefresh(db) && MayAdd(db, used, id, parent, work)
    ensures var db' := WithJob(db, id, parent, work); Bounded(db', used) && Parents(db') && OneOpenRefresh(db')
  {
  }

  lemma AddOwned(db: Db, used: set<Id>, id: Id, parent: Id, work: Intent)
    requires Parents(db) && RunsOwned(db) && EntriesOwned(db) && InRange(db) && MayAdd(db, used, id, parent, work)
    ensures var db' := WithJob(db, id, parent, work); RunsOwned(db') && EntriesOwned(db') && InRange(db')
  {
  }

  lemma AddJobs(db: Db, used: set<Id>, id: Id, parent: Id, work: Intent)
    requires Parents(db) && JobsMatch(db) && Repeats(db) && MayAdd(db, used, id, parent, work)
    ensures var db' := WithJob(db, id, parent, work); JobsMatch(db') && Repeats(db')
  {
    hide Clash;
  }

  lemma AddLocks(db: Db, used: set<Id>, id: Id, parent: Id, work: Intent)
    requires Parents(db) && Locks(db) && MayAdd(db, used, id, parent, work)
    ensures Locks(WithJob(db, id, parent, work))
  {
    hide Clash;
  }

  /** Two jobs of one intent would need two entries of one key while the parent is open. */
  lemma AddUnique(db: Db, used: set<Id>, id: Id, parent: Id, work: Intent)
    requires JobsMatch(db) && KeysUnique(db.outbox) && OneJobPerIntent(db) && OneOpenJob(db)
    requires MayAdd(db, used, id, parent, work)
    ensures var db' := WithJob(db, id, parent, work); OneJobPerIntent(db') && OneOpenJob(db')
  {
  }

  lemma AddHolders(db: Db, used: set<Id>, id: Id, parent: Id, work: Intent)
    requires Parents(db) && Holders(db) && MayAdd(db, used, id, parent, work)
    ensures Holders(WithJob(db, id, parent, work))
  {
    var db' := WithJob(db, id, parent, work);
    forall e | e in db.outbox ensures ParentOpen(db', db.outbox[e].parent) == ParentOpen(db, db.outbox[e].parent) {
      assert IsRefresh(db, db.outbox[e].parent);
    }
  }

  lemma AddQueued(db: Db, used: set<Id>, id: Id, parent: Id, work: Intent)
    requires Parents(db) && AllQueued(db) && MayAdd(db, used, id, parent, work)
    ensures AllQueued(WithJob(db, id, parent, work))
  {
    var db' := WithJob(db, id, parent, work);
    forall r | r in db.runs && db.runs[r].parent.Some?
      ensures ParentOpen(db', db.runs[r].parent.value) == ParentOpen(db, db.runs[r].parent.value)
    {
      assert IsRefresh(db, db.runs[r].parent.value);
    }
  }

  lemma AddSpent(db: Db, used: set<Id>, id: Id, parent: Id, work: Intent)
    requires Parents(db) && JobsSpent(db) && MayAdd(db, used, id, parent, work)
    ensures JobsSpent(WithJob(db, id, parent, work))
  {
    var db' := WithJob(db, id, parent, work);
    forall j | IsChild(db', j) && ParentOpen(db', db'.jobs[j].parent)
      ensures Spent(db'.outbox, db'.jobs[j].parent, db'.jobs[j].work)
    {
      if j != id {
        assert IsChild(db, j) && IsRefresh(db, db.jobs[j].parent);
      }
    }
  }

  lemma AddKept(db: Db, used: set<Id>, id: Id, parent: Id, work: Intent)
    requires MayAdd(db, used, id, parent, work)
    ensures Kept(db, used, WithJob(db, id, parent, work), used)
  {
  }

  lemma AddKeeps(db: Db, used: set<Id>, id: Id, parent: Id, work: Intent)
    requires DbInv(db, used) && MayAdd(db, used, id, parent, work)
    ensures DbInv(WithJob(db, id, parent, work), used) && Kept(db, used, WithJob(db, id, parent, work), used)
  {
    hide Bounded, Parents, OneOpenRefresh, RunsOwned, EntriesOwned, KeysUnique, JobsMatch, OneJobPerIntent;
    hide OneOpenJob, InRange, Holders, Locks, Repeats, JobsSpent, AllQueued, ItemOk, Kept, MayAdd;
    AddParents(db, used, id, parent, work);
    AddOwned(db, used, id, parent, work);
    AddJobs(db, used, id, parent, work);
    AddLocks(db, used, id, parent, work);
    AddUnique(db, used, id, parent, work);
    AddHolders(db, used, id, parent, work);
    AddQueued(db, used, id, parent, work);
    AddKept(db, used, id, parent, work);
    AddSpent(db, used, id, parent, work);
    AddKeys(db, id, parent, work);
  }

  lemma AddKeys(db: Db, id: Id, parent: Id, work: Intent)
    requires KeysUnique(db.outbox)
    ensures KeysUnique(WithJob(db, id, parent, work).outbox)
  {
  }

  lemma DispatchKeeps(db: Db, used: set<Id>, item: Item)
    requires DbInv(db, used) && ItemOk(db, used, item) && !item.intent.Prepare?
    ensures var db' := DispatchTx(db, item.id, item.parent, item.intent); DbInv(db', used) && Kept(db, used, db', used)
  {
    hide DbInv, Kept;
    if Pending(db, item.id) {
      var marked := MarkDispatched(db, item.id);
      var db' := DispatchTx(db, item.id, item.parent, item.intent);
      MarkKeeps(db, used, item.id);
      if ParentOpen(db, item.parent) && item.id !in db.jobs && !Clash(db.jobs, item.intent) {
        NotReplayed(marked, used, item.id);
        assert MayAdd(marked, used, item.id, item.parent, item.intent);
        assert db' == WithJob(marked, item.id, item.parent, item.intent);
        DispatchAdds(db, marked, used, item);
      } else {
        assert db' == marked;
      }
    } else {
      CoreSame(db, used);
    }
  }

  lemma NotReplayed(db: Db, used: set<Id>, id: Id)
    requires DbInv(db, used) && id !in db.jobs
    ensures id !in db.replays
  {
  }

  lemma CoreSame(db: Db, used: set<Id>)
    ensures Kept(db, used, db, used)
  {
  }

  lemma DispatchAdds(db: Db, marked: Db, used: set<Id>, item: Item)
    requires DbInv(marked, used) && Kept(db, used, marked, used)
    requires MayAdd(marked, used, item.id, item.parent, item.intent)
    ensures var db' := WithJob(marked, item.id, item.parent, item.intent); DbInv(db', used) && Kept(db, used, db', used)
  {
    hide DbInv, Kept, MayAdd;
    AddKeeps(marked, used, item.id, item.parent, item.intent);
    KeptTrans(db, used, marked, used, WithJob(marked, item.id, item.parent, item.intent), used);
  }

  // ---------------------------------------------------------------- removal

  function WithoutEntries(db: Db, gone: set<Id>): Db {
    db.(outbox := db.outbox - gone)
  }

  lemma CleanRows(db: Db, used: set<Id>, gone: set<Id>)
    requires Bounded(db, used) && Parents(db) && KeysUnique(db.outbox)
    ensures var db' := WithoutEntries(db, gone); Bounded(db', used) && Parents(db') && KeysUnique(db'.outbox)
  {
  }

  lemma CleanOwned(db: Db, gone: set<Id>)
    requires RunsOwned(db) && EntriesOwned(db) && InRange(db)
    ensures var db' := WithoutEntries(db, gone); RunsOwned(db') && EntriesOwned(db') && InRange(db')
  {
  }

  lemma CleanJobs(db: Db, used: set<Id>, gone: set<Id>)
    requires JobsMatch(db) && CleanableEntries(db, gone)
    ensures JobsMatch(WithoutEntries(db, gone)) && Kept(db, used, WithoutEntries(db, gone), used)
  {
  }

  lemma CleanHolders(db: Db, gone: set<Id>)
    requires Holders(db) && CleanableEntries(db, gone)
    ensures Holders(WithoutEntries(db, gone))
  {
    var db' := WithoutEntries(db, gone);
    forall k | k in db'.outbox && !db'.outbox[k].intent.Prepare? && ParentOpen(db', db'.outbox[k].parent)
               && Detached(db', db'.outbox[k].intent.run, db'.outbox[k].parent)
      ensures Holder(db'.outbox, db'.outbox[k].intent.run, db'.outbox[k].parent)
    {
      var p, r := db'.outbox[k].parent, db'.outbox[k].intent.run;
      assert ParentOpen(db, p) && Detached(db, r, p);
      assert Holder(db.outbox, r, p);
      var h :| h in db.outbox && db.outbox[h] == Entry(p, Finalize(r), true);
      assert db'.outbox[h] == Entry(p, Finalize(r), true);
    }
  }

  lemma CleanQueued(db: Db, gone: set<Id>)
    requires AllQueued(db) && CleanableEntries(db, gone)
    ensures AllQueued(WithoutEntries(db, gone))
  {
    var db' := WithoutEntries(db, gone);
    forall r, n: nat | r in db'.runs && db'.runs[r].parent.Some? && ParentOpen(db', db'.runs[r].parent.value)
                       && n < |db'.runs[r].done|
      ensures KeyTaken(db'.outbox, PartitionKey(db'.runs[r].parent.value, r, n))
    {
      var p := db.runs[r].parent.value;
      assert ParentOpen(db, p) && KeyTaken(db.outbox, PartitionKey(p, r, n));
      var k :| k in db.outbox && Key(db.outbox[k]) == PartitionKey(p, r, n);
      assert k in db'.outbox && Key(db'.outbox[k]) == PartitionKey(p, r, n);
    }
  }

  lemma CleanKeeps(db: Db, used: set<Id>, gone: set<Id>)
    requires DbInv(db, used) && CleanableEntries(db, gone)
    ensures DbInv(WithoutEntries(db, gone), used) && Kept(db, used, WithoutEntries(db, gone), used)
  {
    hide Bounded, Parents, OneOpenRefresh, RunsOwned, EntriesOwned, KeysUnique, JobsMatch, OneJobPerIntent;
    hide OneOpenJob, InRange, Holders, Locks, Repeats, JobsSpent, AllQueued, ItemOk, Kept;
    CleanRows(db, used, gone);
    CleanOwned(db, gone);
    CleanJobs(db, used, gone);
    CleanHolders(db, gone);
    CleanQueued(db, gone);
    JobsFrame(db, WithoutEntries(db, gone));
    SpentFrame(db, WithoutEntries(db, gone));
  }

  /** Runs may go, snapshots may go or come, and every run that stays has its snapshot. */
  ghost predicate Shrinks(db: Db, used: set<Id>, db': Db, used': set<Id>) {
    && db'.jobs == db.jobs && db'.outbox == db.outbox && db'.replays == db.replays && used <= used'
    && (forall r :: r in db'.runs ==> r in db.runs && db'.runs[r] == db.runs[r] && db.runs[r].snapshot in db'.snapshots)
    && (forall s :: s in db'.snapshots && s in used ==> s in db.snapshots && db'.snapshots[s].account == db.snapshots[s].account)
    && db'.snapshots.Keys <= used'
  }

  lemma ShrinkRows(db: Db, used: set<Id>, db': Db, used': set<Id>)
    requires Bounded(db, used) && Parents(db) && Shrinks(db, used, db', used')
    ensures Bounded(db', used') && Parents(db')
  {
  }

  lemma ShrinkOwned(db: Db, used: set<Id>, db': Db, used': set<Id>)
    requires Bounded(db, used) && EntriesOwned(db) && Shrinks(db, used, db', used')
    ensures EntriesOwned(db')
  {
  }

  lemma ShrinkRuns(db: Db, used: set<Id>, db': Db, used': set<Id>)
    requires Bounded(db, used) && RunsOwned(db) && InRange(db) && Shrinks(db, used, db', used')
    ensures RunsOwned(db') && InRange(db')
  {
  }

  lemma ShrinkRest(db: Db, used: set<Id>, db': Db, used': set<Id>)
    requires JobsMatch(db) && Holders(db) && KeysUnique(db.outbox) && Shrinks(db, used, db', used')
    ensures JobsMatch(db') && Holders(db') && KeysUnique(db'.outbox)
  {
    forall e | e in db.outbox && !db.outbox[e].intent.Prepare? && ParentOpen(db', db.outbox[e].parent)
               && Detached(db', db.outbox[e].intent.run, db.outbox[e].parent)
      ensures Holder(db'.outbox, db.outbox[e].intent.run, db.outbox[e].parent)
    {
      assert ParentOpen(db, db.outbox[e].parent) && Detached(db, db.outbox[e].intent.run, db.outbox[e].parent);
    }
  }

  lemma ShrinkQueued(db: Db, used: set<Id>, db': Db, used': set<Id>)
    requires AllQueued(db) && Shrinks(db, used, db', used')
    ensures AllQueued(db')
  {
    forall r, n: nat | r in db'.runs && db'.runs[r].parent.Some? && ParentOpen(db', db'.runs[r].parent.value)
                       && n < |db'.runs[r].done|
      ensures KeyTaken(db'.outbox, PartitionKey(db'.runs[r].parent.value, r, n))
    {
      assert ParentOpen(db, db.runs[r].parent.value);
    }
  }

  lemma ShrinkKept(db: Db, used: set<Id>, db': Db, used': set<Id>)
    requires Shrinks(db, used, db', used')
    ensures Kept(db, used, db', used')
  {
  }

  lemma ShrinkKeeps(db: Db, used: set<Id>, db': Db, used': set<Id>)
    requires DbInv(db, used) && Shrinks(db, used, db', used')
    ensures DbInv(db', used') && Kept(db, used, db', used')
  {
    hide Bounded, Parents, OneOpenRefresh, RunsOwned, EntriesOwned, KeysUnique, JobsMatch, OneJobPerIntent;
    hide OneOpenJob, InRange, Holders, Locks, Repeats, JobsSpent, AllQueued, ItemOk, Kept;
    ShrinkRows(db, used, db', used');
    ShrinkOwned(db, used, db', used');
    ShrinkRuns(db, used, db', used');
    ShrinkRest(db, used, db', used');
    ShrinkQueued(db, used, db', used');
    ShrinkKept(db, used, db', used');
    JobsFrame(db, db');
    SpentFrame(db, db');
  }

  lemma StoreShrinks(db: Db, used: set<Id>, snapshots: map<Id, Snapshot>, added: set<Id>)
    requires Bounded(db, used) && RunsOwned(db)
    requires added !! used && snapshots.Keys <= db.snapshots.Keys + added
    requires forall id :: id in snapshots && id in db.snapshots ==> snapshots[id].account == db.snapshots[id].account
    requires forall r :: r in db.runs ==> db.runs[r].snapshot in snapshots
    ensures Shrinks(db, used, db.(snapshots := snapshots), used + added)
  {
  }

  lemma DropShrinks(db: Db, used: set<Id>, snapshot: Id)
    requires Bounded(db, used) && RunsOwned(db)
    ensures Shrinks(db, used, DropSnapshot(db, snapshot), used)
  {
  }

  lemma CleanRunsShrinks(db: Db, used: set<Id>, gone: set<Id>)
    requires Bounded(db, used) && RunsOwned(db)
    ensures Shrinks(db, used, db.(runs := db.runs - gone), used)
  {
  }

  // ------------------------------------------------------------- new refresh

  function WithRefresh(db: Db, id: Id, source: Id): Db {
    db.(jobs := db.jobs[id := Refresh(source, JobStatus.Queued, false)])
  }

  ghost predicate MayStart(db: Db, used: set<Id>, id: Id, source: Id) {
    && id !in used
    && forall j :: j in db.jobs && db.jobs[j].Refresh? && Open(db.jobs[j].status) ==> db.jobs[j].source != source
  }

  lemma StartRows(db: Db, used: set<Id>, id: Id, source: Id)
    requires Bounded(db, used) && Parents(db) && OneOpenRefresh(db) && MayStart(db, used, id, source)
    ensures var db' := WithRefresh(db, id, source); Bounded(db', used + {id}) && Parents(db') && OneOpenRefresh(db')
  {
  }

  lemma StartOwned(db: Db, used: set<Id>, id: Id, source: Id)
    requires Parents(db) && RunsOwned(db) && EntriesOwned(db) && InRange(db) && Bounded(db, used)
    requires MayStart(db, used, id, source)
    ensures var db' := WithRefresh(db, id, source); RunsOwned(db') && EntriesOwned(db') && InRange(db')
  {
  }

  lemma StartJobs(db: Db, used: set<Id>, id: Id, source: Id)
    requires Bounded(db, used) && Parents(db) && JobsMatch(db) && MayStart(db, used, id, source)
    ensures JobsMatch(WithRefresh(db, id, source))
  {
    var db' := WithRefresh(db, id, source);
    forall j | IsDispatched(db', j) && ParentOpen(db', db'.jobs[j].parent) ensures j in db'.outbox {
      assert IsDispatched(db, j) && IsRefresh(db, db.jobs[j].parent);
    }
  }

  lemma StartRepeats(db: Db, used: set<Id>, id: Id, source: Id)
    requires Bounded(db, used) && Repeats(db) && MayStart(db, used, id, source)
    ensures Repeats(WithRefresh(db, id, source))
  {
  }

  lemma StartLocks(db: Db, used: set<Id>, id: Id, source: Id)
    requires Bounded(db, used) && Parents(db) && Locks(db) && MayStart(db, used, id, source)
    ensures Locks(WithRefresh(db, id, source))
  {
  }

  lemma StartUnique(db: Db, used: set<Id>, id: Id, source: Id)
    requires Bounded(db, used) && OneJobPerIntent(db) && OneOpenJob(db) && MayStart(db, used, id, source)
    ensures var db' := WithRefresh(db, id, source); OneJobPerIntent(db') && OneOpenJob(db')
  {
  }

  lemma StartHolders(db: Db, used: set<Id>, id: Id, source: Id)
    requires Bounded(db, used) && Parents(db) && Holders(db) && KeysUnique(db.outbox) && MayStart(db, used, id, source)
    ensures var db' := WithRefresh(db, id, source); Holders(db') && KeysUnique(db'.outbox)
  {
    var db' := WithRefresh(db, id, source);
    forall e | e in db.outbox ensures ParentOpen(db', db.outbox[e].parent) == ParentOpen(db, db.outbox[e].parent) {
      assert IsRefresh(db, db.outbox[e].parent);
    }
  }

  lemma StartQueued(db: Db, used: set<Id>, id: Id, source: Id)
    requires Bounded(db, used) && Parents(db) && AllQueued(db) && MayStart(db, used, id, source)
    ensures AllQueued(WithRefresh(db, id, source))
  {
    var db' := WithRefresh(db, id, source);
    forall r | r in db.runs && db.runs[r].parent.Some?
      ensures ParentOpen(db', db.runs[r].parent.value) == ParentOpen(db, db.runs[r].parent.value)
    {
      assert IsRefresh(db, db.runs[r].parent.value);
    }
  }

  lemma StartSpent(db: Db, used: set<Id>, id: Id, source: Id)
    requires Bounded(db, used) && Parents(db) && JobsSpent(db) && MayStart(db, used, id, source)
    ensures JobsSpent(WithRefresh(db, id, source))
  {
    var db' := WithRefresh(db, id, source);
    forall j | IsChild(db', j) && ParentOpen(db', db'.jobs[j].parent)
      ensures Spent(db'.outbox, db'.jobs[j].parent, db'.jobs[j].work)
    {
      assert IsChild(db, j) && IsRefresh(db, db.jobs[j].parent);
    }
  }

  lemma StartKept(db: Db, used: set<Id>, id: Id, source: Id)
    requires Bounded(db, used) && MayStart(db, used, id, source)
    ensures Kept(db, used, WithRefresh(db, id, source), used + {id})
  {
  }

  lemma StartKeeps(db: Db, used: set<Id>, id: Id, source: Id)
    requires DbInv(db, used) && MayStart(db, used, id, source)
    ensures DbInv(WithRefresh(db, id, source), used + {id}) && Kept(db, used, WithRefresh(db, id, source), used + {id})
  {
    hide Bounded, Parents, OneOpenRefresh, RunsOwned, EntriesOwned, KeysUnique, JobsMatch, OneJobPerIntent;
    hide OneOpenJob, InRange, Holders, Locks, Repeats, JobsSpent, AllQueued, ItemOk, Kept, MayStart;
    StartRows(db, used, id, source);
    StartOwned(db, used, id, source);
    StartUnique(db, used, id, source);
    StartJobs(db, used, id, source);
    StartLocks(db, used, id, source);
    StartRepeats(db, used, id, source);
    StartHolders(db, used, id, source);
    StartQueued(db, used, id, source);
    StartKept(db, used, id, source);
    StartSpent(db, used, id, source);
  }
}
