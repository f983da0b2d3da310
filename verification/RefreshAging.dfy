/** Steps that only move job, run and snapshot states forward keep the invariant. */
module RefreshAging {
  import opened Common
  import opened RefreshDb
  import opened RefreshInvariant

  /** Jobs keep their identity and ended jobs stay ended. */
  ghost predicate JobsAge(db: Db, db': Db) {
    && db'.jobs.Keys == db.jobs.Keys
    && forall j :: j in db.jobs ==>
         && db'.jobs[j].Refresh? == db.jobs[j].Refresh?
         && (db.jobs[j].Refresh? ==> db'.jobs[j].source == db.jobs[j].source)
         && (db.jobs[j].Child? ==> db'.jobs[j].parent == db.jobs[j].parent && db'.jobs[j].work == db.jobs[j].work)
         && (Open(db'.jobs[j].status) ==> Open(db.jobs[j].status))
  }

  /** Partitions stay done and a run keeps its owner. */
  predicate RunAges(before: RefreshDb.Run, after: RefreshDb.Run) {
    && after.account == before.account && after.snapshot == before.snapshot && after.parent == before.parent
    && |after.done| == |before.done|
    && forall n :: 0 <= n < |before.done| && before.done[n] ==> after.done[n]
  }

  predicate Ended(status: RunStatus) {
    status.Published? || status.RunFailed?
  }

  /** A run ends only if the open parent of its source, when that is the run's parent, has
      its finalizer key used up. */
  ghost predicate RunsAge(db: Db, db': Db) {
    && db'.runs.Keys == db.runs.Keys
    && (forall r :: r in db.runs ==> RunAges(db.runs[r], db'.runs[r]))
    && (forall r, p :: (r in db.runs && Ended(db'.runs[r].status) && !Ended(db.runs[r].status)
                        && db.runs[r].parent == Some(p) && ParentOpen(db', p)) ==> Holder(db.outbox, r, p))
  }

  ghost predicate SnapshotsAge(db: Db, db': Db) {
    && db'.snapshots.Keys == db.snapshots.Keys
    && forall s :: s in db.snapshots ==> db'.snapshots[s].account == db.snapshots[s].account
  }

  ghost predicate Ages(db: Db, db': Db) {
    db'.outbox == db.outbox && db'.replays == db.replays && JobsAge(db, db') && RunsAge(db, db') && SnapshotsAge(db, db')
  }

  lemma AgePreserves(db: Db, used: set<Id>, db': Db)
    requires DbInv(db, used) && Ages(db, db') && Locks(db')
    ensures DbInv(db', used) && Kept(db, used, db', used)
  {
    hide Bounded, Parents, OneOpenRefresh, RunsOwned, EntriesOwned, KeysUnique, JobsMatch, OneJobPerIntent;
    hide OneOpenJob, InRange, Holders, Locks, Repeats, JobsSpent, AllQueued, ItemOk, Kept, JobsAge, RunsAge, SnapshotsAge;
    AgeParents(db, used, db');
    AgeOpen(db, db');
    AgeOwned(db, db');
    AgeJobs(db, db');
    AgeUnique(db, db');
    AgeSpent(db, db');
    AgeIntents(db, db');
    AgeHolders(db, db');
    AgeKept(db, used, db');
  }

  lemma AgeParents(db: Db, used: set<Id>, db': Db)
    requires Bounded(db, used) && Parents(db) && Ages(db, db')
    ensures Bounded(db', used) && Parents(db')
  {
  }

  lemma AgeOpen(db: Db, db': Db)
    requires OneOpenRefresh(db) && JobsAge(db, db')
    ensures OneOpenRefresh(db')
  {
  }

  lemma AgeOwned(db: Db, db': Db)
    requires RunsOwned(db) && EntriesOwned(db) && Ages(db, db')
    ensures RunsOwned(db') && EntriesOwned(db')
  {
  }

  lemma AgeJobs(db: Db, db': Db)
    requires JobsMatch(db) && Repeats(db) && Ages(db, db')
    ensures JobsMatch(db') && Repeats(db')
  {
    hide RunsAge, SnapshotsAge;
  }

  lemma AgeUnique(db: Db, db': Db)
    requires OneJobPerIntent(db) && OneOpenJob(db) && Ages(db, db')
    ensures OneJobPerIntent(db') && OneOpenJob(db')
  {
    hide RunsAge, SnapshotsAge;
  }

  lemma AgeSpent(db: Db, db': Db)
    requires JobsSpent(db) && Ages(db, db')
    ensures JobsSpent(db')
  {
    hide Spent;
  }

  lemma AgeIntents(db: Db, db': Db)
    requires AllQueued(db) && InRange(db) && Ages(db, db')
    ensures AllQueued(db') && InRange(db')
  {
  }

  lemma AgeHolders(db: Db, db': Db)
    requires Holders(db) && Ages(db, db')
    ensures Holders(db')
  {
    forall e | e in db'.outbox && !db'.outbox[e].intent.Prepare? && ParentOpen(db', db'.outbox[e].parent)
               && Detached(db', db'.outbox[e].intent.run, db'.outbox[e].parent)
      ensures Holder(db'.outbox, db'.outbox[e].intent.run, db'.outbox[e].parent)
    {
      var p, r := db.outbox[e].parent, db.outbox[e].intent.run;
      assert RunAges(db.runs[r], db'.runs[r]);
      if Detached(db, r, p) {
        assert ParentOpen(db, p);
      }
    }
  }

  lemma AgeKept(db: Db, used: set<Id>, db': Db)
    requires Ages(db, db')
    ensures Kept(db, used, db', used)
  {
  }

  // ------------------------------------------------------------- the steps

  lemma LifecycleAges(db: Db, id: Id, to: JobStatus)
    requires Locks(db) && id in db.jobs && LifecycleMove(db.jobs[id].status, to)
    ensures Ages(db, SetStatus(db, id, to)) && Locks(SetStatus(db, id, to))
  {
  }

  lemma BeginActivationAges(db: Db, id: Id)
    requires Locks(db) && IsRefresh(db, id)
    ensures Ages(db, Lock(db, id)) && Locks(Lock(db, id))
  {
  }

  lemma ProcessAges(db: Db, run: Id, number: nat)
    requires Locks(db)
    ensures Ages(db, ProcessPartition(db, run, number)) && Locks(ProcessPartition(db, run, number))
  {
  }

  lemma CompleteParentAges(db: Db, parent: Id)
    requires Locks(db)
    ensures Ages(db, CompleteParentTx(db, parent)) && Locks(CompleteParentTx(db, parent))
  {
    CompleteParentLocks(db, parent);
    hide Locks;
  }

  lemma CompleteParentLocks(db: Db, parent: Id)
    requires Locks(db)
    ensures Locks(CompleteParentTx(db, parent))
  {
  }

  lemma FailParentAges(db: Db, parent: Id, ending: set<Id>)
    requires Locks(db)
    ensures Ages(db, FailParentTx(db, parent, ending)) && Locks(FailParentTx(db, parent, ending))
  {
    FailParentLocks(db, parent, ending);
    FailParentJobs(db, parent, ending);
    hide Locks, JobsAge;
  }

  lemma FailParentJobs(db: Db, parent: Id, ending: set<Id>)
    ensures JobsAge(db, FailParentTx(db, parent, ending))
  {
  }

  lemma FailParentLocks(db: Db, parent: Id, ending: set<Id>)
    requires Locks(db)
    ensures Locks(FailParentTx(db, parent, ending))
  {
  }

  lemma CancelFamilyLocks(db: Db, parent: Id)
    requires Locks(db) && IsRefresh(db, parent) && !db.jobs[parent].locked
    ensures Locks(CancelFamily(db, parent))
  {
  }

  lemma CancelFamilyAges(db: Db, parent: Id)
    requires parent in db.jobs
    ensures Ages(db, CancelFamily(db, parent))
  {
  }

  lemma CancelAges(db: Db, id: Id)
    requires Parents(db) && Locks(db)
    ensures Ages(db, CancelTx(db, id)) && Locks(CancelTx(db, id))
  {
    hide Locks, Ages, CancelFamily;
    AgesRefl(db);
    if id in db.jobs && Open(db.jobs[id].status) && !db.jobs[id].locked {
      var parent := if db.jobs[id].Refresh? then id else db.jobs[id].parent;
      assert IsRefresh(db, id) || IsChild(db, id);
      assert IsRefresh(db, parent);
      if !db.jobs[parent].locked {
        CancelFamilyLocks(db, parent);
        CancelFamilyAges(db, parent);
      }
    }
  }

  lemma SnapshotAges(db: Db, id: Id, snap: Snapshot)
    requires Locks(db) && id in db.snapshots && snap.account == db.snapshots[id].account
    ensures Ages(db, db.(snapshots := db.snapshots[id := snap])) && Locks(db.(snapshots := db.snapshots[id := snap]))
  {
  }

  /** While a finalizer's parent runs, it is the only open parent of the source, and the
      finalizer's own entry still holds the run's key. */
  lemma FinalizerHolds(db: Db, id: Id, p: Id)
    requires Parents(db) && OneOpenRefresh(db) && RunsOwned(db) && EntriesOwned(db) && JobsSpent(db)
    requires IsChild(db, id) && db.jobs[id].work.Finalize? && ParentOpen(db, db.jobs[id].parent)
    requires db.jobs[id].work.run in db.runs && db.runs[db.jobs[id].work.run].parent == Some(p) && ParentOpen(db, p)
    ensures Holder(db.outbox, db.jobs[id].work.run, p)
  {
    var q, r := db.jobs[id].parent, db.jobs[id].work.run;
    var e :| e in db.outbox && db.outbox[e] == Entry(q, Finalize(r), true);
    assert SameSource(db, q, db.outbox[e].intent);
  }

  lemma PublishAges(db: Db, parent: Id, id: Id, run: Id, newerActive: bool)
    requires IsRefresh(db, parent) && IsChild(db, id) && Publishable(db, run)
    requires forall p :: db.runs[run].parent == Some(p) && ParentOpen(db, p) ==> Holder(db.outbox, run, p)
    ensures Ages(db, PublishRun(Lock(Lock(db, parent), id), run, newerActive))
  {
  }

  lemma LockBoth(db: Db, id: Id)
    requires Locks(db) && Parents(db) && IsChild(db, id)
    ensures Locks(Lock(Lock(db, db.jobs[id].parent), id))
  {
  }

  lemma CancelFinalizerAges(db: Db, id: Id)
    requires Locks(db) && RunningChild(db, id) && db.jobs[id].work.Finalize?
    ensures var db' := SetStatus(db, id, Cancelled).(runs := EndRuns(db.runs, {db.jobs[id].work.run}, RunCancelled));
            Ages(db, db') && Locks(db')
  {
  }

  lemma FinalizeAges(db: Db, id: Id, newerActive: bool)
    requires Parents(db) && OneOpenRefresh(db) && RunsOwned(db) && EntriesOwned(db) && JobsSpent(db) && Locks(db)
    requires RunningChild(db, id) && db.jobs[id].work.Finalize?
    ensures Ages(db, FinalizeTx(db, id, newerActive)) && Locks(FinalizeTx(db, id, newerActive))
  {
    var q, r := db.jobs[id].parent, db.jobs[id].work.run;
    assert IsChild(db, id) && IsRefresh(db, q);
    hide Parents, OneOpenRefresh, RunsOwned, EntriesOwned, JobsSpent, Locks, Ages, PublishRun;
    if !db.jobs[q].status.Running? {
      CancelFinalizerAges(db, id);
    } else if Publishable(db, r) {
      forall p | db.runs[r].parent == Some(p) && ParentOpen(db, p) ensures Holder(db.outbox, r, p) {
        FinalizerHolds(db, id, p);
      }
      PublishAges(db, q, id, r, newerActive);
      LockBoth(db, id);
      PublishJobs(Lock(Lock(db, q), id), r, newerActive);
      LocksFrame(Lock(Lock(db, q), id), FinalizeTx(db, id, newerActive));
    } else {
      AgesRefl(db);
    }
  }

  lemma PublishJobs(db: Db, run: Id, newerActive: bool)
    requires Publishable(db, run)
    ensures PublishRun(db, run, newerActive).jobs == db.jobs && PublishRun(db, run, newerActive).replays == db.replays
  {
  }

  lemma LocksFrame(db: Db, db': Db)
    requires Locks(db) && db'.jobs == db.jobs && db'.replays == db.replays
    ensures Locks(db')
  {
  }

  lemma AgesRefl(db: Db)
    ensures Ages(db, db)
  {
  }
}
