/** A parent that completes its last partition while the run's finalizer key is taken never
    gets a finalizer, also after the entry that took the key is cleaned up. */
module RefreshStranding {
  import opened Common
  import opened RefreshDb
  import opened RefreshSystem
  import opened RefreshInvariant
  import opened RefreshAging
  import opened RefreshTheorems
  import opened RefreshQueueing
  import opened RefreshSafety

  /** Entries and jobs of one parent for one run. */
  predicate Of(parent: Id, intent: Intent, p: Id, run: Id) {
    parent == p && Concerns(intent, run)
  }

  /** No finalizer is queued for the parent, and while it is open its partition intents are there
      and all dispatched. */
  ghost predicate EntriesUsedUp(outbox: map<Id, Entry>, open: bool, p: Id, run: Id) {
    && (forall e :: e in outbox && Of(outbox[e].parent, outbox[e].intent, p, run) ==>
          outbox[e].intent.Partition? && (open ==> outbox[e].dispatched))
    && (open ==> exists e :: e in outbox && Of(outbox[e].parent, outbox[e].intent, p, run))
  }

  predicate Settled(status: JobStatus) {
    status.Succeeded? || status.Cancelled?
  }

  /** Every job of the parent for the run but `except` is a partition job that ended without failing. */
  ghost predicate JobsSettled(jobs: map<Id, Job>, p: Id, run: Id, except: Option<Id>) {
    forall j :: j in jobs && jobs[j].Child? && Of(jobs[j].parent, jobs[j].work, p, run) && except != Some(j) ==>
      jobs[j].work.Partition? && Settled(jobs[j].status)
  }

  ghost predicate Stranded(db: Db, p: Id, run: Id) {
    IsRefresh(db, p) && EntriesUsedUp(db.outbox, ParentOpen(db, p), p, run) && JobsSettled(db.jobs, p, run, None)
  }

  // -------------------------------------------------------------- one step

  /** An ended child keeps its status. */
  lemma AgingStatus(s: System, step: Step, j: Id)
    requires Enabled(s, step) && Aging(step) && IsChild(s.db, j) && !Open(s.db.jobs[j].status)
    ensures j in DbAfter(s, step).jobs && DbAfter(s, step).jobs[j].status == s.db.jobs[j].status
  {
    hide Clash, ProcessPartition, EndRuns, FinalizeTx, CancelTx, FailParentTx;
    match step {
      case FinalizeRun(id, newerActive) => FinalizeStatus(s.db, id, newerActive, j);
      case Process(id) => ProcessKeepsJobs(s.db, id);
      case Cancel(id) => CancelStatus(s.db, id, j);
      case FailParent(id, ending) => FailStatus(s.db, id, ending, j);
      case _ =>
    }
  }

  lemma CancelStatus(db: Db, id: Id, j: Id)
    requires IsChild(db, j) && !Open(db.jobs[j].status)
    ensures j in CancelTx(db, id).jobs && CancelTx(db, id).jobs[j].status == db.jobs[j].status
  {
    hide EndRuns;
  }

  lemma FailStatus(db: Db, id: Id, ending: set<Id>, j: Id)
    requires IsChild(db, j) && !Open(db.jobs[j].status)
    ensures j in FailParentTx(db, id, ending).jobs && FailParentTx(db, id, ending).jobs[j].status == db.jobs[j].status
  {
    hide EndRuns;
  }

  lemma FinalizeStatus(db: Db, id: Id, newerActive: bool, j: Id)
    requires RunningChild(db, id) && db.jobs[id].work.Finalize? && IsChild(db, j) && !Open(db.jobs[j].status)
    ensures var jobs := FinalizeTx(db, id, newerActive).jobs; j in jobs && jobs[j].status == db.jobs[j].status
  {
  }

  lemma AgingStranded(s: System, step: Step, p: Id, run: Id)
    requires Inv(s) && Enabled(s, step) && Aging(step) && Stranded(s.db, p, run)
    ensures Stranded(DbAfter(s, step), p, run)
  {
    hide LogOk, WorkerOk, DbInv, DbAfter, Enabled, Kept, EntriesUsedUp;
    AgingStep(s, step);
    var db' := DbAfter(s, step);
    forall j | j in db'.jobs && db'.jobs[j].Child? && Of(db'.jobs[j].parent, db'.jobs[j].work, p, run)
      ensures db'.jobs[j].work.Partition? && Settled(db'.jobs[j].status)
    {
      assert j in s.db.jobs && IsChild(s.db, j);
      AgingStatus(s, step, j);
    }
    EntriesClose(s.db.outbox, ParentOpen(s.db, p), ParentOpen(db', p), p, run);
  }

  lemma EntriesClose(outbox: map<Id, Entry>, open: bool, open': bool, p: Id, run: Id)
    requires EntriesUsedUp(outbox, open, p, run) && (open' ==> open)
    ensures EntriesUsedUp(outbox, open', p, run)
  {
  }

  /** Adding entries that do not concern the parent and the run, or only partition intents of an
      ended parent. */
  lemma EntriesGrow(outbox: map<Id, Entry>, outbox': map<Id, Entry>, open: bool, p: Id, run: Id)
    requires EntriesUsedUp(outbox, open, p, run)
    requires forall e :: e in outbox ==> e in outbox' && outbox'[e] == outbox[e]
    requires forall e :: e in outbox' && e !in outbox && Of(outbox'[e].parent, outbox'[e].intent, p, run) ==>
               !open && outbox'[e].intent.Partition?
    ensures EntriesUsedUp(outbox', open, p, run)
  {
  }

  // ------------------------------------------------------------ preparation

  lemma {:induction false} QueueAdds(outbox: map<Id, Entry>, q: Id, r: Id, n: nat, count: nat, ids: seq<Id>)
    requires n <= count <= |ids| && Distinct(ids) && forall i :: n <= i < |ids| ==> ids[i] !in outbox
    ensures var outbox' := QueueFrom(outbox, q, r, n, count, ids);
            && (forall e :: e in outbox ==> e in outbox' && outbox'[e] == outbox[e])
            && (forall e :: e in outbox' && e !in outbox ==>
                  outbox'[e].parent == q && outbox'[e].intent.Partition? && outbox'[e].intent.run == r)
            && ((forall m: nat :: n <= m < count ==> KeyTaken(outbox, PartitionKey(q, r, m))) ==> outbox' == outbox)
    decreases count - n
  {
    if n < count {
      var e := Entry(q, Partition(r, n), false);
      QueueAdds(InsertEntry(outbox, ids[n], e), q, r, n + 1, count, ids);
    }
  }

  /** The parent and the run whose partitions a preparation queues. */
  ghost predicate Queues(db: Db, snapshot: Id, parent: Id, requested: int, latest: Option<Id>, newRun: Id, stamp: nat,
                         ids: seq<Id>, q: Id, r: Id, count: nat)
    requires PrepareInput(db, snapshot, latest, ids)
  {
    && count <= |ids|
    && PrepareTx(db, snapshot, parent, requested, latest, newRun, stamp, ids).db.outbox
       == QueueFrom(db.outbox, q, r, 0, count, ids)
  }

  /** A preparation queues nothing, or one run under one parent: the prior parent of a run that is
      being processed, or the new parent of a run that is created or rebuilt. */
  lemma PrepareQueues(db: Db, snapshot: Id, parent: Id, requested: int, latest: Option<Id>, newRun: Id, stamp: nat, ids: seq<Id>)
    returns (q: Id, r: Id, count: nat)
    requires PrepareInput(db, snapshot, latest, ids)
    ensures var db' := PrepareTx(db, snapshot, parent, requested, latest, newRun, stamp, ids).db;
            && count <= |ids| && db'.outbox == QueueFrom(db.outbox, q, r, 0, count, ids)
            && db'.jobs == db.jobs
    ensures count > 0 ==>
              || (r in db.runs && db.runs[r].status.Processing? && db.runs[r].parent == Some(q) && count == |db.runs[r].done|)
              || (r in db.runs && Ended(db.runs[r].status) && q == parent && count == |db.runs[r].done|)
              || (r == newRun && q == parent)
  {
    q, r, count := parent, newRun, 0;
    if snapshot in db.snapshots && db.snapshots[snapshot].parallel && db.snapshots[snapshot].status.Staging?
       && db.snapshots[snapshot].staged
    {
      if CanReload(db, latest) {
        r := latest.value;
        var prior := db.runs[r];
        if !prior.status.Processing? {
          count := |prior.done|;
        } else if prior.parent.Some? {
          q, count := prior.parent.value, |prior.done|;
        }
      } else if db.snapshots[snapshot].keys > 0 {
        count := Clamp(requested);
      }
    }
  }

  /** The run that a preparation of a staged snapshot takes up. */
  function ChosenRun(db: Db, latest: Option<Id>, newRun: Id): Id {
    if CanReload(db, latest) then latest.value else newRun
  }

  /** A preparation serves its parent exactly if the run it takes up is not being processed for
      another parent.  It then leaves an intent of this parent for every partition; otherwise this
      parent gets no intent at all, whether or not the other one can still use its own. */
  lemma PrepareServes(db: Db, used: set<Id>, snapshot: Id, parent: Id, requested: int, latest: Option<Id>,
                      newRun: Id, stamp: nat, ids: seq<Id>)
    requires PrepareInput(db, snapshot, latest, ids) && FreshIds(used, newRun, ids) && db.outbox.Keys <= used
    requires snapshot in db.snapshots && db.snapshots[snapshot].parallel && db.snapshots[snapshot].status.Staging?
    requires db.snapshots[snapshot].staged && (CanReload(db, latest) || db.snapshots[snapshot].keys > 0)
    ensures var db' := PrepareTx(db, snapshot, parent, requested, latest, newRun, stamp, ids).db;
            var r := ChosenRun(db, latest, newRun);
            && r in db'.runs
            && (db'.runs[r].parent == Some(parent) <==>
                  (CanReload(db, latest) && db.runs[r].status.Processing? ==> db.runs[r].parent == Some(parent)))
            && (if db'.runs[r].parent == Some(parent)
                then forall n: nat :: n < |db'.runs[r].done| ==> KeyTaken(db'.outbox, PartitionKey(parent, r, n))
                else forall e :: e in db'.outbox && db'.outbox[e].parent == parent ==> e in db.outbox)
  {
    var r := ChosenRun(db, latest, newRun);
    var run := PrepareTx(db, snapshot, parent, requested, latest, newRun, stamp, ids).db.runs[r];
    if run.parent.Some? {
      QueueAdds(db.outbox, run.parent.value, r, 0, |run.done|, ids);
      QueueTakes(db.outbox, run.parent.value, r, 0, |run.done|, ids);
    }
    hide KeyTaken, QueueFrom;
  }

  /** While a stranded parent is open, a preparation finds all its partition intents there. */
  lemma NothingToQueue(db: Db, used: set<Id>, p: Id, run: Id, q: Id, count: nat, parent: Id)
    requires AllQueued(db) && Holders(db) && Bounded(db, used)
    requires ParentOpen(db, p) && EntriesUsedUp(db.outbox, true, p, run) && q == p && run in db.runs
    requires || (db.runs[run].status.Processing? && db.runs[run].parent == Some(q) && count == |db.runs[run].done|)
             || Ended(db.runs[run].status)
    ensures db.runs[run].status.Processing?
    ensures forall m: nat :: m < count ==> KeyTaken(db.outbox, PartitionKey(q, run, m))
  {
    var e :| e in db.outbox && Of(db.outbox[e].parent, db.outbox[e].intent, p, run);
  }

  lemma RunIsUsed(db: Db, used: set<Id>, p: Id, run: Id)
    requires Bounded(db, used) && EntriesUsedUp(db.outbox, true, p, run)
    ensures run in used
  {
    var e :| e in db.outbox && Of(db.outbox[e].parent, db.outbox[e].intent, p, run);
    assert Subject(db.outbox[e].intent) == run;
  }

  lemma QueueStranded(db: Db, used: set<Id>, p: Id, run: Id, q: Id, r: Id, count: nat, ids: seq<Id>, parent: Id, newRun: Id)
    requires DbInv(db, used) && Stranded(db, p, run) && count <= |ids| && FreshIds(used, newRun, ids)
    requires count > 0 ==>
               || (r in db.runs && db.runs[r].status.Processing? && db.runs[r].parent == Some(q) && count == |db.runs[r].done|)
               || (r in db.runs && Ended(db.runs[r].status) && q == parent && count == |db.runs[r].done|)
               || (r == newRun && q == parent)
    ensures EntriesUsedUp(QueueFrom(db.outbox, q, r, 0, count, ids), ParentOpen(db, p), p, run)
  {
    hide Parents, OneOpenRefresh, RunsOwned, EntriesOwned, KeysUnique, JobsMatch, OneJobPerIntent;
    hide OneOpenJob, InRange, Holders, Locks, Repeats, JobsSpent, AllQueued, EntriesUsedUp, JobsSettled;
    var open := ParentOpen(db, p);
    QueueAdds(db.outbox, q, r, 0, count, ids);
    if open {
      RunIsUsed(db, used, p, run);
      if count > 0 && q == p && r == run {
        NothingToQueue(db, used, p, run, q, count, parent);
      }
    }
    EntriesGrow(db.outbox, QueueFrom(db.outbox, q, r, 0, count, ids), open, p, run);
  }

  lemma PrepareStranded(db: Db, used: set<Id>, snapshot: Id, parent: Id, requested: int, latest: Option<Id>,
                        newRun: Id, stamp: nat, ids: seq<Id>, p: Id, run: Id)
    requires DbInv(db, used) && Stranded(db, p, run)
    requires PrepareInput(db, snapshot, latest, ids) && FreshIds(used, newRun, ids)
    ensures Stranded(PrepareTx(db, snapshot, parent, requested, latest, newRun, stamp, ids).db, p, run)
  {
    hide DbInv, PrepareTx, PrepareInput, EntriesUsedUp, JobsSettled;
    var q, r, count := PrepareQueues(db, snapshot, parent, requested, latest, newRun, stamp, ids);
    QueueStranded(db, used, p, run, q, r, count, ids, parent, newRun);
  }

  // ------------------------------------------------------------ other steps

  lemma MarkStranded(db: Db, id: Id, p: Id, run: Id)
    requires Stranded(db, p, run)
    ensures Stranded(MarkDispatched(db, id), p, run)
  {
    var db' := MarkDispatched(db, id);
    if ParentOpen(db, p) {
      var e :| e in db.outbox && Of(db.outbox[e].parent, db.outbox[e].intent, p, run);
      assert e in db'.outbox && Of(db'.outbox[e].parent, db'.outbox[e].intent, p, run);
    }
  }

  /** A job of other work, or of another parent, is added. */
  lemma AddStranded(db: Db, id: Id, job: Job, p: Id, run: Id, replays: map<Id, Id>)
    requires Stranded(db, p, run) && id !in db.jobs && (job.Child? ==> !Of(job.parent, job.work, p, run))
    ensures Stranded(db.(jobs := db.jobs[id := job], replays := replays), p, run)
  {
    hide EntriesUsedUp;
  }

  lemma DispatchStranded(db: Db, used: set<Id>, item: Item, p: Id, run: Id)
    requires Stranded(db, p, run) && ItemOk(db, used, item)
    ensures Stranded(DispatchTx(db, item.id, item.parent, item.intent), p, run)
  {
    hide Stranded;
    if Pending(db, item.id) {
      MarkStranded(db, item.id, p, run);
      var marked := MarkDispatched(db, item.id);
      if ParentOpen(db, item.parent) && item.id !in db.jobs && !Clash(db.jobs, item.intent) {
        PendingIsOther(db, item, p, run);
        AddStranded(marked, item.id, Child(item.parent, item.intent, JobStatus.Queued, false), p, run, db.replays);
        assert marked.(jobs := marked.jobs[item.id := Child(item.parent, item.intent, JobStatus.Queued, false)], replays := db.replays)
            == DispatchTx(db, item.id, item.parent, item.intent);
      }
    }
  }

  lemma PendingIsOther(db: Db, item: Item, p: Id, run: Id)
    requires Stranded(db, p, run) && Pending(db, item.id) && ParentOpen(db, item.parent)
    requires db.outbox[item.id].parent == item.parent && db.outbox[item.id].intent == item.intent
    ensures !Of(item.parent, item.intent, p, run)
  {
  }

  lemma InsertStranded(db: Db, id: Id, e: Entry, p: Id, run: Id)
    requires Stranded(db, p, run) && id !in db.outbox && !Of(e.parent, e.intent, p, run)
    ensures Stranded(db.(outbox := InsertEntry(db.outbox, id, e)), p, run)
  {
    hide JobsSettled;
    EntriesGrow(db.outbox, InsertEntry(db.outbox, id, e), ParentOpen(db, p), p, run);
  }

  lemma CompleteStranded(db: Db, id: Id, entry: Id, p: Id, run: Id)
    requires Stranded(db, p, run) && RunningChild(db, id) && db.jobs[id].work.Partition? && entry !in db.outbox
    ensures Stranded(CompletePartition(db, id, entry), p, run)
  {
    var job := db.jobs[id];
    assert !Of(job.parent, job.work, p, run);
    var mid := SetStatus(db, id, JobStatus.Succeeded);
    assert Stranded(mid, p, run) by {
      hide EntriesUsedUp;
    }
    if job.parent in db.jobs && db.jobs[job.parent].Refresh? && !db.jobs[job.parent].status.Cancelled? {
      InsertStranded(mid, entry, Entry(job.parent, Finalize(job.work.run), false), p, run);
    }
  }

  lemma CleanStranded(db: Db, gone: set<Id>, p: Id, run: Id)
    requires Stranded(db, p, run) && CleanableEntries(db, gone)
    ensures Stranded(db.(outbox := db.outbox - gone), p, run)
  {
    hide JobsSettled;
    var outbox := db.outbox - gone;
    if ParentOpen(db, p) {
      var e :| e in db.outbox && Of(db.outbox[e].parent, db.outbox[e].intent, p, run);
      assert e in outbox && Of(outbox[e].parent, outbox[e].intent, p, run);
    }
  }

  lemma SameTables(db: Db, db': Db, p: Id, run: Id)
    requires Stranded(db, p, run) && db'.jobs == db.jobs && db'.outbox == db.outbox
    ensures Stranded(db', p, run)
  {
  }

  lemma TablesUsed(s: System)
    requires Inv(s)
    ensures s.db.jobs.Keys <= s.used && s.db.outbox.Keys <= s.used
  {
    hide LogOk, WorkerOk;
  }

  /** The steps that touch neither jobs nor the outbox. */
  predicate Plain(step: Step) {
    || step.StoreSnapshots? || step.DiscardSnapshot? || step.ReadPreparations? || step.ReadEntries? || step.SkipLocked?
    || step.Stop? || step.CleanRuns?
  }

  lemma PlainStranded(s: System, step: Step, p: Id, run: Id)
    requires Enabled(s, step) && Plain(step) && Stranded(s.db, p, run)
    ensures Stranded(DbAfter(s, step), p, run)
  {
    hide Stranded, Dispatchable, Preparable, CleanableRuns;
    SameTables(s.db, DbAfter(s, step), p, run);
  }

  lemma PrepareOneStranded(s: System, step: Step, p: Id, run: Id)
    requires Inv(s) && Enabled(s, step) && Stranded(s.db, p, run) && step.PrepareOne?
    ensures Stranded(DbAfter(s, step), p, run)
  {
    hide LogOk, WorkerOk, DbInv, Stranded, PrepareTx, PrepareInput, FreshIds;
    var item := s.workers[step.w].preps[0];
    PrepareStranded(s.db, s.used, item.intent.snapshot, item.parent, item.intent.partitions, step.latest, step.run,
                    step.stamp, step.ids, p, run);
  }

  lemma PrepareDirectStranded(s: System, step: Step, p: Id, run: Id)
    requires Inv(s) && Enabled(s, step) && Stranded(s.db, p, run) && step.PrepareDirect?
    ensures Stranded(DbAfter(s, step), p, run)
  {
    hide LogOk, WorkerOk, DbInv, Stranded, PrepareTx, PrepareInput, FreshIds;
    PrepareStranded(s.db, s.used, step.snapshot, step.parent, step.partitions, step.latest, step.run, step.stamp, step.ids, p, run);
  }

  lemma IntentStranded(s: System, step: Step, p: Id, run: Id)
    requires Inv(s) && Enabled(s, step) && Stranded(s.db, p, run)
    requires step.Stage? || step.MarkPrepared?
    ensures Stranded(DbAfter(s, step), p, run)
  {
    TablesUsed(s);
    hide LogOk, WorkerOk, DbInv, Stranded, PrepareTx, PrepareInput, FreshIds, InsertEntry, MarkDispatched;
    var db := s.db;
    match step {
      case Stage(parent, snapshot, partitions, id) =>
        InsertStranded(db, id, Entry(parent, Prepare(snapshot, Clamp(partitions)), false), p, run);
      case MarkPrepared(w) => MarkStranded(db, s.workers[w].id, p, run);
    }
  }

  /** No step brings a stranded parent its finalizer. */
  lemma StrandedStep(s: System, step: Step, p: Id, run: Id)
    requires Inv(s) && Enabled(s, step) && Stranded(s.db, p, run)
    ensures Stranded(DbAfter(s, step), p, run)
  {
    hide LogOk, WorkerOk, DbInv, Stranded, DbAfter, Enabled;
    if Aging(step) {
      AgingStranded(s, step, p, run);
    } else if Plain(step) {
      PlainStranded(s, step, p, run);
    } else if step.PrepareOne? {
      PrepareOneStranded(s, step, p, run);
    } else if step.PrepareDirect? {
      PrepareDirectStranded(s, step, p, run);
    } else if step.Stage? || step.MarkPrepared? {
      IntentStranded(s, step, p, run);
    } else if step.DispatchOne? {
      DispatchStepStranded(s, step, p, run);
    } else if step.Replay? {
      ReplayStranded(s, step, p, run);
    } else {
      JobStranded(s, step, p, run);
    }
  }

  lemma DispatchStepStranded(s: System, step: Step, p: Id, run: Id)
    requires Inv(s) && Enabled(s, step) && Stranded(s.db, p, run) && step.DispatchOne?
    ensures Stranded(DbAfter(s, step), p, run)
  {
    FirstItem(s, step);
    hide Inv, Stranded, Clash, DispatchTx, ItemOk;
    DispatchStranded(s.db, s.used, s.workers[step.w].todo[0], p, run);
  }

  lemma ReplayStranded(s: System, step: Step, p: Id, run: Id)
    requires Inv(s) && Enabled(s, step) && Stranded(s.db, p, run) && step.Replay?
    ensures Stranded(DbAfter(s, step), p, run)
  {
    TablesUsed(s);
    FailedIsOther(s.db, step.failed, p, run);
    hide Inv, Stranded, Clash;
    var job := s.db.jobs[step.failed];
    AddStranded(s.db, step.id, Child(job.parent, job.work, JobStatus.Queued, false), p, run, s.db.replays[step.id := step.failed]);
  }

  lemma JobStranded(s: System, step: Step, p: Id, run: Id)
    requires Inv(s) && Enabled(s, step) && Stranded(s.db, p, run)
    requires step.NewRefresh? || step.Complete? || step.CleanEntries?
    ensures Stranded(DbAfter(s, step), p, run)
  {
    TablesUsed(s);
    hide LogOk, WorkerOk, DbInv, Stranded, Clash;
    var db := s.db;
    match step {
      case NewRefresh(id, source) => AddStranded(db, id, Refresh(source, JobStatus.Queued, false), p, run, db.replays);
      case Complete(id, entry) => CompleteStranded(db, id, entry, p, run);
      case CleanEntries(gone) => CleanStranded(db, gone, p, run);
    }
  }

  lemma FailedIsOther(db: Db, failed: Id, p: Id, run: Id)
    requires Stranded(db, p, run) && Replayable(db, failed)
    ensures !Of(db.jobs[failed].parent, db.jobs[failed].work, p, run)
  {
    hide EntriesUsedUp;
  }

  // ------------------------------------------------------------- whole runs

  /** A stranded parent stays so, and so never has a finalizer job for the run, whatever is
      cleaned up, prepared again, replayed or dispatched. */
  lemma {:induction false} StrandedForever(states: seq<System>, steps: seq<Step>, i: nat, k: nat, p: Id, run: Id)
    requires Execution(states, steps) && i <= k <= |steps| && Stranded(states[i].db, p, run)
    ensures Stranded(states[k].db, p, run)
    ensures forall j :: ChildOf(states[k].db, j, p) ==> states[k].db.jobs[j].work != Finalize(run)
    decreases k - i
  {
    hide Inv, Enabled, DbAfter, UsedAfter, WorkersAfter, LogAfter, Stranded;
    if i < k {
      StrandedForever(states, steps, i, k - 1, p, run);
      InvHolds(states, steps, k - 1);
      StrandedStep(states[k - 1], steps[k - 1], p, run);
    }
    NoFinalizer(states[k].db, p, run);
  }

  lemma NoFinalizer(db: Db, p: Id, run: Id)
    requires Stranded(db, p, run)
    ensures forall j :: ChildOf(db, j, p) ==> db.jobs[j].work != Finalize(run)
  {
    hide EntriesUsedUp;
  }

  /** The completion of a partition queues its run's finalizer exactly if the key is free and
      the parent is not cancelled. */
  lemma CompletionQueues(db: Db, id: Id, entry: Id)
    requires RunningChild(db, id) && db.jobs[id].work.Partition? && entry !in db.outbox && IsRefresh(db, db.jobs[id].parent)
    ensures entry in CompletePartition(db, id, entry).outbox <==>
              !db.jobs[db.jobs[id].parent].status.Cancelled? && !KeyTaken(db.outbox, FinalizerKey(db.jobs[id].work.run))
    ensures entry in CompletePartition(db, id, entry).outbox ==>
              CompletePartition(db, id, entry).outbox[entry] == Entry(db.jobs[id].parent, Finalize(db.jobs[id].work.run), false)
  {
  }

  /** Completing the last partition job of an open parent strands it exactly if the key is taken. */
  lemma LastCompletionStrands(db: Db, id: Id, entry: Id)
    requires RunningChild(db, id) && db.jobs[id].work.Partition? && entry !in db.outbox
    requires IsRefresh(db, db.jobs[id].parent) && ParentOpen(db, db.jobs[id].parent)
    requires EntriesUsedUp(db.outbox, true, db.jobs[id].parent, db.jobs[id].work.run)
    requires JobsSettled(db.jobs, db.jobs[id].parent, db.jobs[id].work.run, Some(id))
    ensures Stranded(CompletePartition(db, id, entry), db.jobs[id].parent, db.jobs[id].work.run)
            <==> KeyTaken(db.outbox, FinalizerKey(db.jobs[id].work.run))
  {
    var p, run := db.jobs[id].parent, db.jobs[id].work.run;
    var db' := CompletePartition(db, id, entry);
    CompletionQueues(db, id, entry);
    if entry in db'.outbox {
      assert Of(db'.outbox[entry].parent, db'.outbox[entry].intent, p, run);
    }
  }
}
