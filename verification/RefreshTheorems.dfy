/** Every execution of the refresh protocol keeps the invariant, and what follows from it. */
module RefreshTheorems {
  import opened Common
  import opened RefreshDb
  import opened RefreshSystem
  import opened RefreshInvariant
  import opened RefreshAging
  import opened RefreshQueueing
  import opened RefreshReplay

  // ------------------------------------------------------------- one step

  lemma StageKeeps(db: Db, used: set<Id>, parent: Id, snapshot: Id, partitions: int, id: Id)
    requires DbInv(db, used) && id !in used && IsRefresh(db, parent)
    requires snapshot in db.snapshots && db.snapshots[snapshot].account == db.jobs[parent].source
    ensures var db' := StageIntent(db, parent, snapshot, partitions, id);
            DbInv(db', used + {id}) && Kept(db, used, db', used + {id})
  {
    hide DbCore, Kept, AllQueued;
    var e := Entry(parent, Prepare(snapshot, Clamp(partitions)), false);
    assert snapshot in used && id !in db.outbox by { BoundedIds(db, used); }
    InsertCore(db, used, id, e, used + {id});
    InsertQueued(db, id, e);
  }

  lemma BoundedIds(db: Db, used: set<Id>)
    requires DbCore(db, used)
    ensures db.snapshots.Keys <= used && db.outbox.Keys <= used
  {
  }

  lemma CompletionQueueable(db: Db, used: set<Id>, id: Id)
    requires Bounded(db, used) && Parents(db) && EntriesOwned(db) && JobsSpent(db) && Holders(db)
    requires IsChild(db, id) && db.jobs[id].work.Partition?
    ensures Queueable(db, used, Entry(db.jobs[id].parent, Finalize(db.jobs[id].work.run), false))
  {
    var p, r := db.jobs[id].parent, db.jobs[id].work.run;
    assert SameSource(db, p, db.jobs[id].work);
    if ParentOpen(db, p) && Detached(db, r, p) {
      var e :| e in db.outbox && db.outbox[e] == Entry(p, db.jobs[id].work, true);
      assert Holder(db.outbox, r, p);
    }
  }

  lemma CompleteKeeps(db: Db, used: set<Id>, id: Id, entry: Id)
    requires DbInv(db, used) && RunningChild(db, id) && db.jobs[id].work.Partition? && entry !in used
    ensures var db' := CompletePartition(db, id, entry); DbInv(db', used + {entry}) && Kept(db, used, db', used + {entry})
  {
    hide Bounded, Parents, OneOpenRefresh, RunsOwned, EntriesOwned, KeysUnique, JobsMatch, OneJobPerIntent;
    hide OneOpenJob, InRange, Holders, Locks, Repeats, JobsSpent, AllQueued, ItemOk, Kept, Ages;
    var p, r := db.jobs[id].parent, db.jobs[id].work.run;
    var mid := SetStatus(db, id, JobStatus.Succeeded);
    LifecycleAges(db, id, JobStatus.Succeeded);
    AgePreserves(db, used, mid);
    CoreWiden(mid, used, used + {entry});
    KeptTrans(db, used, mid, used, mid, used + {entry});
    CoreWiden(db, used, used + {entry});
    if p in db.jobs && db.jobs[p].Refresh? && !db.jobs[p].status.Cancelled? {
      var e := Entry(p, Finalize(r), false);
      CompletionQueueable(mid, used + {entry}, id);
      BoundedIds(mid, used);
      InsertCore(mid, used, entry, e, used + {entry});
      InsertQueued(mid, entry, e);
      KeptTrans(db, used, mid, used, CompletePartition(db, id, entry), used + {entry});
    }
  }

  lemma PrepareKeeps(db: Db, used: set<Id>, snapshot: Id, parent: Id, requested: int, latest: Option<Id>,
                     run: Id, stamp: nat, ids: seq<Id>)
    requires DbInv(db, used) && PrepareInput(db, snapshot, latest, ids) && FreshIds(used, run, ids)
    requires IsRefresh(db, parent) && SameSource(db, parent, Prepare(snapshot, requested))
    ensures var db' := PrepareTx(db, snapshot, parent, requested, latest, run, stamp, ids).db;
            DbInv(db', used + {run} + Ids(ids)) && Kept(db, used, db', used + {run} + Ids(ids))
  {
    var used' := used + {run} + Ids(ids);
    Widen(db, used, used');
    if snapshot in db.snapshots && db.snapshots[snapshot].parallel && db.snapshots[snapshot].status.Staging?
       && db.snapshots[snapshot].staged
    {
      if CanReload(db, latest) {
        ReloadAccount(db, latest.value);
        hide DbInv, Kept;
        ReloadKeeps(db, used, latest.value, parent, run, ids);
      } else if db.snapshots[snapshot].keys == 0 {
        var snap := db.snapshots[snapshot].(status := Rejected);
        SnapshotAges(db, snapshot, snap);
        RejectKeeps(db, used, snapshot, snap, used');
      } else {
        hide DbInv, Kept;
        CreateKeeps(db, used, snapshot, parent, requested, run, stamp, ids);
      }
    }
  }

  lemma ReloadAccount(db: Db, run: Id)
    requires RunsOwned(db) && run in db.runs
    ensures db.runs[run].snapshot in db.snapshots && db.snapshots[db.runs[run].snapshot].account == db.runs[run].account
  {
  }

  lemma Widen(db: Db, used: set<Id>, used': set<Id>)
    requires DbInv(db, used) && used <= used'
    ensures DbInv(db, used') && Kept(db, used, db, used')
  {
    CoreWiden(db, used, used');
  }

  lemma RejectKeeps(db: Db, used: set<Id>, snapshot: Id, snap: Snapshot, used': set<Id>)
    requires DbInv(db, used) && snapshot in db.snapshots && used <= used'
    requires Ages(db, db.(snapshots := db.snapshots[snapshot := snap])) && Locks(db.(snapshots := db.snapshots[snapshot := snap]))
    ensures var db' := db.(snapshots := db.snapshots[snapshot := snap]); DbInv(db', used') && Kept(db, used, db', used')
  {
    hide DbInv, Kept, Ages, Locks;
    var db' := db.(snapshots := db.snapshots[snapshot := snap]);
    AgePreserves(db, used, db');
    Widen(db', used, used');
    KeptTrans(db, used, db', used, db', used');
  }

  /** Worker facts that a preparation or dispatch step starts from. */
  lemma FirstItem(s: System, step: Step)
    requires Inv(s) && Enabled(s, step) && (step.PrepareOne? || step.DispatchOne?)
    ensures step.PrepareOne? ==> ItemOk(s.db, s.used, s.workers[step.w].preps[0])
    ensures step.DispatchOne? ==> ItemOk(s.db, s.used, s.workers[step.w].todo[0]) && !s.workers[step.w].todo[0].intent.Prepare?
  {
    hide DbInv, LogOk, ItemOk;
    assert WorkerOk(s, s.workers[step.w]);
  }

  predicate Aging(step: Step) {
    || step.Lifecycle? || step.BeginActivation? || step.Process? || step.FinalizeRun? || step.CompleteParent?
    || step.FailParent? || step.Cancel?
  }

  lemma AgingStep(s: System, step: Step)
    requires DbInv(s.db, s.used) && Enabled(s, step) && Aging(step)
    ensures var db' := DbAfter(s, step); Ages(s.db, db') && DbInv(db', s.used) && Kept(s.db, s.used, db', s.used)
  {
    hide Bounded, Parents, OneOpenRefresh, RunsOwned, EntriesOwned, KeysUnique, JobsMatch, OneJobPerIntent;
    hide OneOpenJob, InRange, Holders, Locks, Repeats, JobsSpent, AllQueued, ItemOk, Kept, Ages;
    var db := s.db;
    match step {
      case Lifecycle(id, to) => LifecycleAges(db, id, to);
      case BeginActivation(id) => BeginActivationAges(db, id);
      case Process(id) => ProcessAges(db, db.jobs[id].work.run, db.jobs[id].work.number);
      case FinalizeRun(id, newerActive) => FinalizeAges(db, id, newerActive);
      case CompleteParent(id) => CompleteParentAges(db, id);
      case FailParent(id, ending) => FailParentAges(db, id, ending);
      case Cancel(id) => CancelAges(db, id);
    }
    AgePreserves(db, s.used, DbAfter(s, step));
  }

  lemma ShrinkingStep(s: System, step: Step)
    requires DbInv(s.db, s.used) && Enabled(s, step)
    requires step.StoreSnapshots? || step.DiscardSnapshot? || step.CleanRuns?
    ensures var db' := DbAfter(s, step); DbInv(db', UsedAfter(s, step)) && Kept(s.db, s.used, db', UsedAfter(s, step))
  {
    hide Bounded, Parents, OneOpenRefresh, RunsOwned, EntriesOwned, KeysUnique, JobsMatch, OneJobPerIntent;
    hide OneOpenJob, InRange, Holders, Locks, Repeats, JobsSpent, AllQueued, ItemOk, Kept, Shrinks;
    match step {
      case StoreSnapshots(snapshots, added) => StoreShrinks(s.db, s.used, snapshots, added);
      case DiscardSnapshot(id) => DropShrinks(s.db, s.used, id);
      case CleanRuns(gone) => CleanRunsShrinks(s.db, s.used, gone);
    }
    ShrinkKeeps(s.db, s.used, DbAfter(s, step), UsedAfter(s, step));
  }

  lemma DbStep(s: System, step: Step)
    requires Inv(s) && Enabled(s, step)
    ensures var db' := DbAfter(s, step); DbInv(db', UsedAfter(s, step)) && Kept(s.db, s.used, db', UsedAfter(s, step))
  {
    hide DbInv, Kept, LogOk, WorkerOk, ItemOk;
    var db, used := s.db, s.used;
    match step {
      case NewRefresh(id, source) => StartKeeps(db, used, id, source);
      case Stage(parent, snapshot, partitions, id) => StageKeeps(db, used, parent, snapshot, partitions, id);
      case PrepareOne(w, latest, run, stamp, ids) =>
        FirstItem(s, step);
        var item := s.workers[w].preps[0];
        PrepareItem(db, used, item, latest, run, stamp, ids);
      case PrepareDirect(parent, snapshot, partitions, latest, run, stamp, ids) =>
        PrepareKeeps(db, used, snapshot, parent, partitions, latest, run, stamp, ids);
      case MarkPrepared(w) => MarkKeeps(db, used, s.workers[w].id);
      case DispatchOne(w) =>
        FirstItem(s, step);
        DispatchKeeps(db, used, s.workers[w].todo[0]);
      case Complete(id, entry) => CompleteKeeps(db, used, id, entry);
      case Replay(failed, id) => ReplayKeeps(db, used, failed, id);
      case CleanEntries(gone) => CleanKeeps(db, used, gone);
      case StoreSnapshots(_, _) => ShrinkingStep(s, step);
      case DiscardSnapshot(_) => ShrinkingStep(s, step);
      case CleanRuns(_) => ShrinkingStep(s, step);
      case ReadPreparations(_, _) => CoreSame(db, used);
      case ReadEntries(_, _) => CoreSame(db, used);
      case SkipLocked(_) => CoreSame(db, used);
      case Stop(_) => CoreSame(db, used);
      case _ => AgingStep(s, step);
    }
  }

  lemma PrepareItem(db: Db, used: set<Id>, item: Item, latest: Option<Id>, run: Id, stamp: nat, ids: seq<Id>)
    requires DbInv(db, used) && ItemOk(db, used, item) && item.intent.Prepare?
    requires PrepareInput(db, item.intent.snapshot, latest, ids) && FreshIds(used, run, ids)
    ensures var db' := PrepareTx(db, item.intent.snapshot, item.parent, item.intent.partitions, latest, run, stamp, ids).db;
            DbInv(db', used + {run} + Ids(ids)) && Kept(db, used, db', used + {run} + Ids(ids))
  {
    hide DbInv, Kept;
    PrepareKeeps(db, used, item.intent.snapshot, item.parent, item.intent.partitions, latest, run, stamp, ids);
  }

  // ---------------------------------------------------- dispatchers and log

  lemma WorkerKept(s: System, s': System, w: Worker)
    requires Kept(s.db, s.used, s'.db, s'.used) && WorkerOk(s, w)
    ensures WorkerOk(s', w)
  {
    hide ItemOk, MarkOk;
  }

  lemma ItemRead(db: Db, used: set<Id>, id: Id)
    requires DbInv(db, used) && (Preparable(db, id) || Dispatchable(db, id))
    ensures ItemOk(db, used, ItemOf(db, id))
  {
  }

  lemma ReadOk(s: System, items: seq<Item>)
    requires DbInv(s.db, s.used)
    requires forall i :: 0 <= i < |items| ==>
               (Preparable(s.db, items[i].id) || Dispatchable(s.db, items[i].id)) && items[i] == ItemOf(s.db, items[i].id)
    ensures ItemsOk(s, items)
  {
    hide DbInv, ItemOk;
    forall i | 0 <= i < |items| ensures ItemOk(s.db, s.used, items[i]) {
      ItemRead(s.db, s.used, items[i].id);
    }
  }

  lemma MarkItem(s: System, step: Step)
    requires Inv(s) && Enabled(s, step) && step.PrepareOne?
    ensures MarkOk(s.db, s.used, s.workers[step.w].preps[0].id)
  {
    FirstItem(s, step);
  }

  lemma WorkersStep(s: System, step: Step, w: Id)
    requires Inv(s) && Enabled(s, step) && w in WorkersAfter(s, step)
    ensures WorkerOk(After(s, step), WorkersAfter(s, step)[w])
  {
    hide DbInv, Kept, LogOk, ItemOk, MarkOk;
    var s' := After(s, step);
    DbStep(s, step);
    assert WorkerOk(s, s.workers[w]);
    WorkerKept(s, s', s.workers[w]);
    if step.ReadPreparations? && w == step.w {
      ReadOk(s, step.items);
    } else if step.ReadEntries? && w == step.w {
      ReadOk(s, step.items);
    } else if step.PrepareOne? && w == step.w {
      MarkItem(s, step);
      WorkerKept(s, s', Marking(s.workers[w].preps[0].id, s.workers[w].preps[1..]));
    }
  }

  lemma PrepareKeepsJobs(s: System, step: Step)
    requires Enabled(s, step) && (step.PrepareOne? || step.PrepareDirect?)
    ensures DbAfter(s, step).jobs == s.db.jobs
  {
  }

  lemma NewChild(s: System, step: Step, j: Id)
    requires Enabled(s, step) && IsChild(DbAfter(s, step), j) && !IsChild(s.db, j) && !step.Replay?
    requires step.DispatchOne? ==> s.workers[step.w].todo[0].id in s.used
    ensures step.DispatchOne? && j == s.workers[step.w].todo[0].id && Pending(s.db, j) && j !in s.db.jobs
    ensures ParentOpen(s.db, s.workers[step.w].todo[0].parent)
    ensures DbAfter(s, step).jobs[j] == Child(s.workers[step.w].todo[0].parent, s.workers[step.w].todo[0].intent, JobStatus.Queued, false)
  {
    hide PrepareTx, PrepareInput, FreshIds, Dispatchable, Preparable, CleanableEntries, CleanableRuns, EndRuns;
    match step {
      case PrepareOne(_, _, _, _, _) => PrepareKeepsJobs(s, step);
      case PrepareDirect(_, _, _, _, _, _, _) => PrepareKeepsJobs(s, step);
      case _ =>
    }
  }

  lemma RecordedGrows(log: seq<Record>, r: Record, job: Id)
    requires Recorded(log, job) || r == Record(job, true)
    ensures Recorded(log + [r], job)
  {
    if Recorded(log, job) {
      var i :| 0 <= i < |log| && log[i] == Record(job, true);
      assert (log + [r])[i] == Record(job, true);
    } else {
      assert (log + [r])[|log|] == Record(job, true);
    }
  }

  lemma QuietLog(s: System, step: Step)
    requires Enabled(s, step) && !(step.DispatchOne? && Pending(s.db, FirstId(s, step)))
    ensures LogAfter(s, step) == s.log
  {
    hide DbAfter;
  }

  lemma LogFacts(s: System, j: Id)
    requires LogOk(s) && IsDispatched(s.db, j)
    ensures Recorded(s.log, j)
  {
  }

  lemma KeptDispatched(db: Db, used: set<Id>, db': Db, used': set<Id>, j: Id)
    requires Kept(db, used, db', used') && IsDispatched(db', j) && IsChild(db, j)
    ensures IsDispatched(db, j)
  {
    hide ItemOk, MarkOk;
  }

  /** A dispatched job that was on record before a step, or that the step adds, is on record after. */
  lemma RecordStep(s: System, step: Step, j: Id)
    requires Inv(s) && Enabled(s, step) && IsDispatched(DbAfter(s, step), j)
    ensures Recorded(LogAfter(s, step), j)
  {
    hide DbInv, WorkerOk, LogOk, Recorded, Kept, DbAfter, Enabled, LogAfter;
    DbStep(s, step);
    if step.DispatchOne? {
      FirstUsed(s, step);
    }
    if IsChild(s.db, j) {
      KeptDispatched(s.db, s.used, DbAfter(s, step), UsedAfter(s, step), j);
      LogFacts(s, j);
      if step.DispatchOne? && Pending(s.db, FirstId(s, step)) {
        DispatchRecord(s, step);
        RecordedGrows(s.log, LogAfter(s, step)[|s.log|], j);
      } else {
        QuietLog(s, step);
      }
    } else {
      NewDispatched(s, step, j);
      RecordedGrows(s.log, Record(j, true), j);
    }
  }

  lemma FirstUsed(s: System, step: Step)
    requires Inv(s) && Enabled(s, step) && step.DispatchOne?
    ensures step.w in s.workers && s.workers[step.w].Dispatching? && s.workers[step.w].todo != []
    ensures s.workers[step.w].todo[0].id in s.used
  {
    FirstItem(s, step);
    ItemUsed(s.db, s.used, s.workers[step.w].todo[0]);
  }

  lemma NewDispatched(s: System, step: Step, j: Id)
    requires Enabled(s, step) && IsDispatched(DbAfter(s, step), j) && !IsChild(s.db, j)
    requires step.DispatchOne? ==> s.workers[step.w].todo[0].id in s.used
    ensures LogAfter(s, step) == s.log + [Record(j, true)]
  {
    if !step.Replay? {
      NewChild(s, step, j);
    }
  }

  lemma LogKept(s: System, s': System)
    requires LogOk(s) && Kept(s.db, s.used, s'.db, s'.used) && s'.log == s.log
    requires forall j :: IsDispatched(s'.db, j) ==> Recorded(s'.log, j)
    ensures LogOk(s')
  {
    hide ItemOk, MarkOk, Recorded;
  }

  lemma LogGrows(s: System, s': System, r: Record)
    requires LogOk(s) && Kept(s.db, s.used, s'.db, s'.used) && s'.log == s.log + [r]
    requires forall j :: IsDispatched(s'.db, j) ==> Recorded(s'.log, j)
    requires r.entry in s.used && Pending(s.db, r.entry) && !Pending(s'.db, r.entry)
    requires r.inserted ==> IsDispatched(s'.db, r.entry)
    ensures LogOk(s')
  {
    hide ItemOk, MarkOk, Recorded;
  }

  /** What a dispatch puts on record. */
  lemma DispatchRecord(s: System, step: Step)
    requires Inv(s) && Enabled(s, step) && step.DispatchOne? && Pending(s.db, s.workers[step.w].todo[0].id)
    ensures var r := LogAfter(s, step)[|s.log|]; var db' := DbAfter(s, step);
            && LogAfter(s, step) == s.log + [r] && r.entry == s.workers[step.w].todo[0].id && r.entry in s.used
            && !Pending(db', r.entry) && (r.inserted ==> IsDispatched(db', r.entry))
  {
    FirstItem(s, step);
    var id := s.workers[step.w].todo[0].id;
    ItemUsed(s.db, s.used, s.workers[step.w].todo[0]);
    if id !in s.db.jobs {
      NotReplayed(s.db, s.used, id);
    }
    hide Inv, ItemOk, Clash, DispatchTx;
    DispatchesEntry(s.db, id, s.workers[step.w].todo[0].parent, s.workers[step.w].todo[0].intent);
  }

  lemma DispatchesEntry(db: Db, id: Id, parent: Id, intent: Intent)
    requires Pending(db, id)
    ensures var db' := DispatchTx(db, id, parent, intent);
            !Pending(db', id) && db'.replays == db.replays && (id in db'.jobs && id !in db.jobs ==> db'.jobs[id].Child?)
  {
    hide Clash;
  }

  lemma LogStep(s: System, step: Step)
    requires Inv(s) && Enabled(s, step)
    ensures LogOk(After(s, step))
  {
    var s' := After(s, step);
    hide DbInv, WorkerOk, LogOk, Kept, DbAfter, UsedAfter, WorkersAfter, LogAfter, Enabled, Recorded;
    DbStep(s, step);
    forall j | IsDispatched(s'.db, j) ensures Recorded(s'.log, j) {
      RecordStep(s, step, j);
    }
    if step.DispatchOne? {
      FirstUsed(s, step);
    }
    if step.DispatchOne? && Pending(s.db, FirstId(s, step)) {
      DispatchRecord(s, step);
      LogGrows(s, s', s'.log[|s.log|]);
    } else {
      QuietLog(s, step);
      LogKept(s, s');
    }
  }

  function FirstId(s: System, step: Step): Id
    requires step.DispatchOne? && step.w in s.workers && s.workers[step.w].Dispatching? && s.workers[step.w].todo != []
  {
    s.workers[step.w].todo[0].id
  }

  lemma ItemUsed(db: Db, used: set<Id>, item: Item)
    requires ItemOk(db, used, item)
    ensures item.id in used
  {
  }

  lemma StepKeeps(s: System, step: Step)
    requires Inv(s) && Enabled(s, step)
    ensures Inv(After(s, step))
  {
    hide DbInv, Kept, LogOk, WorkerOk;
    DbStep(s, step);
    LogStep(s, step);
    forall w | w in WorkersAfter(s, step) ensures WorkerOk(After(s, step), WorkersAfter(s, step)[w]) {
      WorkersStep(s, step, w);
    }
  }
}
