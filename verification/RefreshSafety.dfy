/** Safety of whole executions of the refresh protocol. */
module RefreshSafety {
  import opened Common
  import opened RefreshDb
  import opened RefreshSystem
  import opened RefreshInvariant
  import opened RefreshAging
  import opened RefreshQueueing
  import opened RefreshTheorems

  lemma {:induction false} InvHolds(states: seq<System>, steps: seq<Step>, k: nat)
    requires Execution(states, steps) && k <= |steps|
    ensures Inv(states[k])
  {
    hide Inv, Init, Enabled, DbAfter, UsedAfter, WorkersAfter, LogAfter;
    if k == 0 {
      InitInv(states[0]);
    } else {
      InvHolds(states, steps, k - 1);
      StepKeeps(states[k - 1], steps[k - 1]);
    }
  }

  lemma InitInv(s: System)
    requires Init(s)
    ensures Inv(s)
  {
    hide DbInv;
    InitDb(s.db);
  }

  lemma InitDb(db: Db)
    requires db == Db(map[], map[], map[], map[], map[])
    ensures DbInv(db, {})
  {
    hide Bounded, Parents, OneOpenRefresh, RunsOwned, EntriesOwned, KeysUnique, JobsMatch, OneJobPerIntent;
    hide OneOpenJob, InRange, Holders, Locks, Repeats, JobsSpent, AllQueued;
    InitRows(db);
    InitJobs(db);
    InitIntents(db);
  }

  lemma InitJobs(db: Db)
    requires db == Db(map[], map[], map[], map[], map[])
    ensures JobsMatch(db) && OneJobPerIntent(db) && OneOpenJob(db) && Locks(db) && Repeats(db)
  {
  }

  lemma InitIntents(db: Db)
    requires db == Db(map[], map[], map[], map[], map[])
    ensures InRange(db) && Holders(db) && JobsSpent(db) && AllQueued(db)
  {
    hide Spent, KeyTaken;
  }

  lemma InitRows(db: Db)
    requires db == Db(map[], map[], map[], map[], map[])
    ensures Bounded(db, {}) && Parents(db) && OneOpenRefresh(db) && RunsOwned(db) && EntriesOwned(db) && KeysUnique(db.outbox)
  {
  }

  // ------------------------------------------------- one dispatch per entry

  /** However many dispatchers read an entry, it is dispatched at most once, and the child jobs
      that no replay added are exactly the entries whose dispatch is recorded as adding a job. */
  lemma DispatchedOnce(states: seq<System>, steps: seq<Step>, k: nat)
    requires Execution(states, steps) && k <= |steps|
    ensures forall i, j :: 0 <= i < j < |states[k].log| ==> states[k].log[i].entry != states[k].log[j].entry
    ensures forall id :: IsDispatched(states[k].db, id) <==> Recorded(states[k].log, id)
  {
    InvHolds(states, steps, k);
    hide DbInv, WorkerOk;
  }

  // ------------------------------------------- children of open parents only

  /** A job keeps what it is, and once ended it stays ended. */
  ghost predicate SameJob(before: Job, after: Job) {
    && before.Refresh? == after.Refresh?
    && (before.Refresh? ==> after.source == before.source)
    && (before.Child? ==> after.parent == before.parent && after.work == before.work)
    && (Open(after.status) ==> Open(before.status))
  }

  /** The steps that touch no job. */
  predicate JobFree(step: Step) {
    || step.StoreSnapshots? || step.DiscardSnapshot? || step.Stage? || step.ReadPreparations? || step.PrepareOne?
    || step.PrepareDirect? || step.MarkPrepared? || step.ReadEntries? || step.SkipLocked? || step.Stop?
    || step.CleanEntries? || step.CleanRuns?
  }

  lemma JobFreeKeeps(s: System, step: Step)
    requires Enabled(s, step) && JobFree(step)
    ensures DbAfter(s, step).jobs == s.db.jobs && DbAfter(s, step).replays == s.db.replays
  {
    if step.PrepareOne? || step.PrepareDirect? {
      PrepareKeepsJobs(s, step);
    } else {
      hide PrepareTx, PrepareInput, FreshIds, Dispatchable, Preparable, CleanableEntries, CleanableRuns;
    }
  }

  lemma AddingForward(s: System, step: Step, j: Id)
    requires Enabled(s, step) && j in s.db.jobs && s.db.jobs.Keys <= s.used && !JobFree(step) && !Aging(step)
    ensures var db' := DbAfter(s, step);
            j in db'.jobs && SameJob(s.db.jobs[j], db'.jobs[j]) && (j in db'.replays <==> j in s.db.replays)
  {
    hide Clash;
    match step {
      case NewRefresh(id, source) =>
      case DispatchOne(w) =>
      case Complete(id, entry) =>
      case Replay(failed, id) =>
    }
  }

  lemma AgesForward(db: Db, db': Db, j: Id)
    requires Ages(db, db') && j in db.jobs
    ensures j in db'.jobs && SameJob(db.jobs[j], db'.jobs[j]) && (j in db'.replays <==> j in db.replays)
  {
    hide RunsAge, SnapshotsAge;
  }

  /** What a step makes of a job that was there. */
  lemma JobForward(s: System, step: Step, j: Id)
    requires Inv(s) && Enabled(s, step) && j in s.db.jobs
    ensures var db' := DbAfter(s, step);
            j in db'.jobs && SameJob(s.db.jobs[j], db'.jobs[j]) && (j in db'.replays <==> j in s.db.replays)
  {
    UsedJobs(s);
    hide LogOk, WorkerOk, DbAfter, DbInv, Enabled, Kept, Ages;
    if JobFree(step) {
      JobFreeKeeps(s, step);
    } else if Aging(step) {
      AgingStep(s, step);
      AgesForward(s.db, DbAfter(s, step), j);
    } else {
      AddingForward(s, step, j);
    }
  }

  lemma UsedJobs(s: System)
    requires Inv(s)
    ensures s.db.jobs.Keys <= s.used
  {
    hide LogOk, WorkerOk;
  }

  /** The job that a replay repeats. */
  ghost predicate Repeated(db: Db, step: Step, job: Job) {
    && step.Replay? && IsChild(db, step.failed) && db.jobs[step.failed].status.Failed? && job.Child?
    && db.jobs[step.failed].parent == job.parent && db.jobs[step.failed].work == job.work
  }

  /** A child job appears only while its parent is queued or running, or as the replay of a
      failed child of the same parent with the same work. */
  lemma ChildNeedsOpenParent(states: seq<System>, steps: seq<Step>, k: nat, j: Id)
    requires Execution(states, steps) && k < |steps|
    requires IsChild(states[k + 1].db, j) && !IsChild(states[k].db, j)
    ensures j in states[k + 1].db.replays <==> steps[k].Replay?
    ensures if steps[k].Replay? then Repeated(states[k].db, steps[k], states[k + 1].db.jobs[j])
            else ParentOpen(states[k].db, states[k + 1].db.jobs[j].parent)
  {
    InvHolds(states, steps, k);
    hide Inv;
    if steps[k].Replay? {
      NewReplay(states[k], steps[k], j);
    } else {
      NewChildItem(states[k], steps[k], j);
      NewIsDispatched(states[k], steps[k], j);
    }
  }

  lemma NewReplay(s: System, step: Step, j: Id)
    requires Enabled(s, step) && step.Replay? && IsChild(DbAfter(s, step), j) && !IsChild(s.db, j)
    ensures j == step.id && j in DbAfter(s, step).replays && Repeated(s.db, step, DbAfter(s, step).jobs[j])
  {
  }

  lemma NewIsDispatched(s: System, step: Step, j: Id)
    requires Inv(s) && Enabled(s, step) && step.DispatchOne? && j !in s.db.jobs
    ensures j !in DbAfter(s, step).replays
  {
    NotReplayed(s.db, s.used, j);
    hide Inv, Clash;
  }

  /** The new job of a step is the one that the dispatched entry describes. */
  lemma NewChildItem(s: System, step: Step, j: Id)
    requires Inv(s) && Enabled(s, step) && IsChild(DbAfter(s, step), j) && !IsChild(s.db, j) && !step.Replay?
    ensures step.DispatchOne? && Pending(s.db, j) && j !in s.db.jobs
    ensures var item := s.workers[step.w].todo[0];
            && item.id == j && ItemOk(s.db, s.used, item) && ParentOpen(s.db, item.parent)
            && s.db.outbox[j] == Entry(item.parent, item.intent, false)
            && DbAfter(s, step).jobs[j] == Child(item.parent, item.intent, JobStatus.Queued, false)
  {
    hide DbInv, LogOk, WorkerOk;
    if step.DispatchOne? {
      FirstItem(s, step);
    }
    NewChild(s, step, j);
  }

  lemma EndedOnce(s: System, step: Step, p: Id)
    requires Inv(s) && Enabled(s, step) && Terminal(s.db, p)
    ensures Terminal(DbAfter(s, step), p)
  {
    JobForward(s, step, p);
  }

  lemma {:induction false} EndedStaysEnded(states: seq<System>, steps: seq<Step>, i: nat, k: nat, p: Id)
    requires Execution(states, steps) && i <= k <= |steps| && Terminal(states[i].db, p)
    ensures Terminal(states[k].db, p)
    decreases k - i
  {
    hide Inv, Enabled, DbAfter, UsedAfter, WorkersAfter, LogAfter;
    if i < k {
      EndedStaysEnded(states, steps, i, k - 1, p);
      InvHolds(states, steps, k - 1);
      EndedOnce(states[k - 1], steps[k - 1], p);
    }
  }

  ghost predicate ChildOf(db: Db, j: Id, p: Id) {
    IsChild(db, j) && db.jobs[j].parent == p
  }

  /** A child stays a child of the same parent with the same work, dispatched or replayed. */
  lemma ChildForward(s: System, step: Step, j: Id)
    requires Inv(s) && Enabled(s, step) && IsChild(s.db, j)
    ensures IsChild(DbAfter(s, step), j) && (j in DbAfter(s, step).replays <==> j in s.db.replays)
    ensures DbAfter(s, step).jobs[j].parent == s.db.jobs[j].parent && DbAfter(s, step).jobs[j].work == s.db.jobs[j].work
  {
    JobForward(s, step, j);
  }

  ghost predicate SameWork(db: Db, j: Id, db': Db, j': Id) {
    && IsChild(db, j) && IsChild(db', j')
    && db.jobs[j].parent == db'.jobs[j'].parent && db.jobs[j].work == db'.jobs[j'].work
  }

  /** Every child job does the work of a job that a dispatch added for the same parent. */
  lemma {:induction false} ChildHasOrigin(states: seq<System>, steps: seq<Step>, k: nat, j: Id)
    requires Execution(states, steps) && k <= |steps| && IsChild(states[k].db, j)
    ensures exists o :: IsDispatched(states[k].db, o) && SameWork(states[k].db, o, states[k].db, j)
    decreases k
  {
    hide Inv, Enabled, DbAfter, UsedAfter, WorkersAfter, LogAfter;
    if j in states[k].db.replays {
      if k == 0 {
        assert false;
      }
      var s, step := states[k - 1], steps[k - 1];
      InvHolds(states, steps, k - 1);
      if !IsChild(s.db, j) {
        ChildNeedsOpenParent(states, steps, k - 1, j);
      } else {
        ChildForward(s, step, j);
      }
      var before := if IsChild(s.db, j) then j else step.failed;
      ChildHasOrigin(states, steps, k - 1, before);
      var o :| IsDispatched(s.db, o) && SameWork(s.db, o, s.db, before);
      ChildForward(s, step, o);
      assert IsDispatched(states[k].db, o) && SameWork(states[k].db, o, states[k].db, j);
    } else {
      assert SameWork(states[k].db, j, states[k].db, j);
    }
  }

  /** Once a parent has ended, no dispatch adds a further child to it, and a replay only adds
      children that repeat the work of one it had. */
  lemma {:induction false} NoChildAfterEnd(states: seq<System>, steps: seq<Step>, i: nat, k: nat, p: Id, j: Id)
    requires Execution(states, steps) && i <= k <= |steps| && Terminal(states[i].db, p)
    requires ChildOf(states[k].db, j, p)
    ensures j !in states[k].db.replays ==> ChildOf(states[i].db, j, p)
    ensures exists o :: ChildOf(states[i].db, o, p) && SameWork(states[i].db, o, states[k].db, j)
    decreases k - i
  {
    hide Inv, Enabled, DbAfter, UsedAfter, WorkersAfter, LogAfter;
    if i < k {
      var s, step := states[k - 1], steps[k - 1];
      InvHolds(states, steps, k - 1);
      if IsChild(s.db, j) {
        ChildForward(s, step, j);
        NoChildAfterEnd(states, steps, i, k - 1, p, j);
      } else {
        EndedStaysEnded(states, steps, i, k - 1, p);
        ChildNeedsOpenParent(states, steps, k - 1, j);
        NoChildAfterEnd(states, steps, i, k - 1, p, step.failed);
      }
    }
  }

  /** A cancelled refresh has no queued or running child but a replayed one. */
  lemma CancelledParentIsQuiet(states: seq<System>, steps: seq<Step>, k: nat, j: Id)
    requires Execution(states, steps) && k <= |steps| && IsChild(states[k].db, j)
    ensures var jobs := states[k].db.jobs; var p := jobs[j].parent;
            p in jobs && jobs[p].Refresh?
            && (jobs[p].status.Cancelled? && Open(jobs[j].status) ==> j in states[k].db.replays)
  {
    InvHolds(states, steps, k);
    hide LogOk, WorkerOk, OneOpenRefresh, RunsOwned, EntriesOwned, KeysUnique, OneJobPerIntent, OneOpenJob, Holders;
    assert IsRefresh(states[k].db, states[k].db.jobs[j].parent);
  }

  /** Even a replayed child is stopped by the cancellation if it was there before: what is
      queued or running under a cancelled parent was replayed after the parent had ended. */
  lemma {:induction false} CancellationStops(states: seq<System>, steps: seq<Step>, i: nat, k: nat, p: Id, j: Id)
    requires Execution(states, steps) && i <= k <= |steps|
    requires ChildOf(states[i].db, j, p) && IsRefresh(states[i].db, p) && ParentOpen(states[i].db, p)
    ensures ChildOf(states[k].db, j, p) && IsRefresh(states[k].db, p)
    ensures states[k].db.jobs[p].status.Cancelled? ==> !Open(states[k].db.jobs[j].status)
    decreases k - i
  {
    hide Inv, Enabled, DbAfter, UsedAfter, WorkersAfter, LogAfter;
    if i < k {
      var s, step := states[k - 1], steps[k - 1];
      CancellationStops(states, steps, i, k - 1, p, j);
      InvHolds(states, steps, k - 1);
      ChildForward(s, step, j);
      JobForward(s, step, p);
      JobForward(s, step, j);
      if states[k].db.jobs[p].status.Cancelled? && !s.db.jobs[p].status.Cancelled? {
        CancelStep(s, step, p, j);
      }
    }
  }

  lemma FinalizeKeepsRefreshes(db: Db, id: Id, newerActive: bool, p: Id)
    requires RunningChild(db, id) && db.jobs[id].work.Finalize? && IsRefresh(db, p)
    ensures var jobs := FinalizeTx(db, id, newerActive).jobs; p in jobs && jobs[p].status == db.jobs[p].status
  {
  }

  lemma ProcessKeepsJobs(db: Db, id: Id)
    requires RunningChild(db, id) && db.jobs[id].work.Partition?
    ensures ProcessPartition(db, db.jobs[id].work.run, db.jobs[id].work.number).jobs == db.jobs
  {
  }

  /** Only a cancellation makes a refresh cancelled. */
  lemma OnlyCancelCancels(s: System, step: Step, p: Id)
    requires Enabled(s, step) && !step.Cancel? && IsRefresh(s.db, p) && s.db.jobs.Keys <= s.used
    ensures var jobs := DbAfter(s, step).jobs; p in jobs && (jobs[p].status.Cancelled? ==> s.db.jobs[p].status.Cancelled?)
  {
    if JobFree(step) {
      hide DbAfter, Enabled;
      JobFreeKeeps(s, step);
    } else {
      hide Clash, FinalizeTx, ProcessPartition, EndRuns;
      match step {
        case FinalizeRun(id, newerActive) => FinalizeKeepsRefreshes(s.db, id, newerActive, p);
        case Process(id) => ProcessKeepsJobs(s.db, id);
        case _ =>
      }
    }
  }

  lemma FamilyStops(db: Db, id: Id, p: Id, j: Id)
    requires IsRefresh(db, p) && !db.jobs[p].status.Cancelled? && ChildOf(db, j, p)
    requires db.jobs[j].locked && Open(db.jobs[p].status) ==> db.jobs[p].locked
    requires CancelTx(db, id).jobs[p].status.Cancelled?
    ensures j in CancelTx(db, id).jobs && !Open(CancelTx(db, id).jobs[j].status)
  {
    hide EndRuns;
  }

  /** The cancellation that cancels a refresh stops its child. */
  lemma CancelStep(s: System, step: Step, p: Id, j: Id)
    requires Inv(s) && Enabled(s, step) && IsRefresh(s.db, p) && !s.db.jobs[p].status.Cancelled? && ChildOf(s.db, j, p)
    requires p in DbAfter(s, step).jobs && DbAfter(s, step).jobs[p].status.Cancelled?
    ensures j in DbAfter(s, step).jobs && !Open(DbAfter(s, step).jobs[j].status)
  {
    UsedJobs(s);
    FamilyLocks(s, p, j);
    hide Inv, DbAfter, Enabled, CancelTx;
    if !step.Cancel? {
      OnlyCancelCancels(s, step, p);
    } else {
      AfterCancel(s, step.id);
      FamilyStops(s.db, step.id, p, j);
    }
  }

  lemma AfterCancel(s: System, id: Id)
    requires Enabled(s, Cancel(id))
    ensures DbAfter(s, Cancel(id)) == CancelTx(s.db, id)
  {
  }

  lemma FamilyLocks(s: System, p: Id, j: Id)
    requires Inv(s) && IsRefresh(s.db, p) && ChildOf(s.db, j, p)
    ensures s.db.jobs[j].locked && Open(s.db.jobs[p].status) ==> s.db.jobs[p].locked
  {
    hide LogOk, WorkerOk;
  }

  // ------------------------------------------------------ partition intents

  ghost predicate PartitionEntry(db: Db, e: Id, parent: Id, run: Id, n: nat) {
    e in db.outbox && db.outbox[e].parent == parent && db.outbox[e].intent == Partition(run, n)
  }

  lemma IntentFacts(s: System)
    requires Inv(s)
    ensures AllQueued(s.db) && InRange(s.db) && KeysUnique(s.db.outbox)
  {
    hide LogOk, WorkerOk, AllQueued, InRange, KeysUnique;
  }

  /** However often a run is prepared, while its parent is open the outbox holds exactly one
      intent for each of its partitions and none for any other number. */
  lemma ExactPartitionIntents(states: seq<System>, steps: seq<Step>, k: nat, run: Id, parent: Id, n: nat)
    requires Execution(states, steps) && k <= |steps|
    requires run in states[k].db.runs && states[k].db.runs[run].parent == Some(parent) && ParentOpen(states[k].db, parent)
    ensures (exists e :: PartitionEntry(states[k].db, e, parent, run, n)) <==> n < |states[k].db.runs[run].done|
    ensures forall e, e' :: PartitionEntry(states[k].db, e, parent, run, n) && PartitionEntry(states[k].db, e', parent, run, n) ==> e == e'
  {
    InvHolds(states, steps, k);
    IntentFacts(states[k]);
    hide Inv, Execution;
    var db := states[k].db;
    if n < |db.runs[run].done| {
      assert KeyTaken(db.outbox, PartitionKey(parent, run, n));
      var e :| e in db.outbox && Key(db.outbox[e]) == PartitionKey(parent, run, n);
      assert PartitionEntry(db, e, parent, run, n);
    }
    forall e, e' | PartitionEntry(db, e, parent, run, n) && PartitionEntry(db, e', parent, run, n) ensures e == e' {
      assert Key(db.outbox[e]) == Key(db.outbox[e']);
    }
  }

  /** Dispatch never gives one refresh two jobs for the same partition or two finalizers for the
      same run, and no two open jobs of any refreshes do the same work, replayed or not. */
  lemma OneJobPerWork(states: seq<System>, steps: seq<Step>, k: nat, i: Id, j: Id)
    requires Execution(states, steps) && k <= |steps|
    requires IsChild(states[k].db, i) && IsChild(states[k].db, j) && i != j
    requires states[k].db.jobs[i].work == states[k].db.jobs[j].work
    ensures IsDispatched(states[k].db, i) && IsDispatched(states[k].db, j) ==>
              states[k].db.jobs[i].parent != states[k].db.jobs[j].parent
    ensures !(Open(states[k].db.jobs[i].status) && Open(states[k].db.jobs[j].status))
  {
    InvHolds(states, steps, k);
    hide LogOk, WorkerOk, Bounded, Parents, OneOpenRefresh, RunsOwned, EntriesOwned, KeysUnique, JobsMatch, InRange, Holders, Locks, Repeats, JobsSpent, AllQueued;
  }

  lemma UnusedStays(s: System, step: Step, h: Id)
    requires Inv(s) && Enabled(s, step) && h in s.used && !Pending(s.db, h) && h !in s.db.jobs
    ensures h in UsedAfter(s, step) && !Pending(DbAfter(s, step), h) && h !in DbAfter(s, step).jobs
  {
    hide LogOk, WorkerOk, DbInv, ItemOk, MarkOk, DbAfter, Enabled, UsedAfter;
    DbStep(s, step);
    NoJobAppears(s, step, h);
  }

  lemma NoJobAppears(s: System, step: Step, h: Id)
    requires Inv(s) && Enabled(s, step) && h in s.used && !Pending(s.db, h) && h !in s.db.jobs
    ensures h !in DbAfter(s, step).jobs
  {
    hide LogOk, WorkerOk, DbInv;
    if JobFree(step) {
      hide DbAfter, Enabled;
      JobFreeKeeps(s, step);
    } else if Aging(step) {
      hide DbAfter, Enabled, Kept;
      AgingStep(s, step);
    } else {
      hide Clash;
      match step {
        case NewRefresh(id, source) =>
        case DispatchOne(w) =>
        case Complete(id, entry) =>
        case Replay(failed, id) =>
      }
    }
  }

  /** An entry that was dispatched without a job, because its parent had ended or the insert was
      swallowed, never gets one. */
  lemma {:induction false} SpentWithoutJob(states: seq<System>, steps: seq<Step>, i: nat, k: nat, h: Id)
    requires Execution(states, steps) && i <= k <= |steps|
    requires h in states[i].used && !Pending(states[i].db, h) && h !in states[i].db.jobs
    ensures h in states[k].used && !Pending(states[k].db, h) && h !in states[k].db.jobs
    decreases k - i
  {
    hide Inv, Enabled, DbAfter, UsedAfter, WorkersAfter, LogAfter;
    if i < k {
      SpentWithoutJob(states, steps, i, k - 1, h);
      InvHolds(states, steps, k - 1);
      UnusedStays(states[k - 1], steps[k - 1], h);
    }
  }

  // --------------------------------------------------------------- finalizer

  /** The partition check is made when the list is read; it still holds when the job appears. */
  lemma FinalizerAppearsAfterPartitions(states: seq<System>, steps: seq<Step>, k: nat, j: Id)
    requires Execution(states, steps) && k < |steps| && !steps[k].Replay?
    requires IsChild(states[k + 1].db, j) && !IsChild(states[k].db, j) && states[k + 1].db.jobs[j].work.Finalize?
    ensures states[k + 1].db.jobs[j].work.run in states[k].db.runs ==>
              AllDone(states[k].db.runs[states[k + 1].db.jobs[j].work.run])
  {
    InvHolds(states, steps, k);
    NewChildItem(states[k], steps[k], j);
  }

  /** Step k clears no partition of the run. */
  ghost predicate KeepsDone(states: seq<System>, k: nat, run: Id)
    requires k + 1 < |states|
  {
    run in states[k].db.runs && run in states[k + 1].db.runs ==>
      && |states[k + 1].db.runs[run].done| == |states[k].db.runs[run].done|
      && forall n :: 0 <= n < |states[k].db.runs[run].done| && states[k].db.runs[run].done[n] ==> states[k + 1].db.runs[run].done[n]
  }

  lemma RunsNotReused(s: System, step: Step, run: Id)
    requires Inv(s) && Enabled(s, step) && run in s.used && run in DbAfter(s, step).runs
    ensures run in s.db.runs
  {
    hide Inv, Kept;
    if step.PrepareOne? {
      assert run != step.run;
    }
  }

  lemma DispatchKeepsRuns(s: System, step: Step)
    requires Enabled(s, step) && step.DispatchOne?
    ensures DbAfter(s, step).runs == s.db.runs
  {
  }

  lemma ChildRunUsed(s: System, j: Id)
    requires Inv(s) && IsChild(s.db, j)
    ensures Subject(s.db.jobs[j].work) in s.used && !s.db.jobs[j].work.Prepare?
  {
    hide LogOk, WorkerOk;
  }

  /** While no partition leaves the succeeded state, a finalizer job exists only for a run
      with every partition succeeded, whether it was dispatched or replayed. */
  lemma {:induction false} FinalizerMeansDone(states: seq<System>, steps: seq<Step>, k: nat, j: Id)
    requires Execution(states, steps) && k <= |steps|
    requires IsChild(states[k].db, j) && states[k].db.jobs[j].work.Finalize?
    requires forall i :: 0 <= i < k ==> KeepsDone(states, i, states[k].db.jobs[j].work.run)
    ensures states[k].db.jobs[j].work.run in states[k].db.runs ==> AllDone(states[k].db.runs[states[k].db.jobs[j].work.run])
    decreases k
  {
    hide Inv, Enabled, DbAfter, UsedAfter, WorkersAfter, LogAfter;
    var run := states[k].db.jobs[j].work.run;
    if k == 0 {
      assert false;
    } else if run in states[k].db.runs {
      var s, step := states[k - 1], steps[k - 1];
      InvHolds(states, steps, k - 1);
      if !IsChild(s.db, j) && !step.Replay? {
        NewChildItem(s, step, j);
        FinalizerAppearsAfterPartitions(states, steps, k - 1, j);
        DispatchKeepsRuns(s, step);
      } else {
        var before := if IsChild(s.db, j) then j else step.failed;
        if IsChild(s.db, j) {
          ChildForward(s, step, j);
        } else {
          ChildNeedsOpenParent(states, steps, k - 1, j);
        }
        ChildRunUsed(s, before);
        RunsNotReused(s, step, run);
        FinalizerMeansDone(states, steps, k - 1, before);
        assert KeepsDone(states, k - 1, run) && states[k - 1 + 1] == states[k];
        DoneStays(s.db.runs[run], states[k].db.runs[run]);
      }
    }
  }

  lemma DoneStays(before: RefreshDb.Run, after: RefreshDb.Run)
    requires AllDone(before) && |after.done| == |before.done|
    requires forall n :: 0 <= n < |before.done| && before.done[n] ==> after.done[n]
    ensures AllDone(after)
  {
  }

  /** The run's finalizer key is taken by an entry that yields no job any more: it was
      dispatched, or its parent has ended. */
  ghost predicate KeySpent(db: Db, h: Id, run: Id) {
    h in db.outbox && db.outbox[h].intent == Finalize(run) && (db.outbox[h].dispatched || Terminal(db, db.outbox[h].parent))
  }

  /** The finalizer key names the run alone.  A run that is rebuilt under a later parent
      therefore gets no finalizer dispatched for as long as the earlier entry is not cleaned up. */
  lemma RebuiltRunWaitsForCleanup(states: seq<System>, steps: seq<Step>, k: nat, h: Id, run: Id, j: Id)
    requires Execution(states, steps) && k < |steps| && KeySpent(states[k].db, h, run)
    requires IsChild(states[k + 1].db, j) && states[k + 1].db.jobs[j].work == Finalize(run)
    ensures IsChild(states[k].db, j) || (steps[k].Replay? && Repeated(states[k].db, steps[k], states[k + 1].db.jobs[j]))
    ensures KeySpent(states[k + 1].db, h, run) || (steps[k].CleanEntries? && h in steps[k].gone)
  {
    InvHolds(states, steps, k);
    var s, step := states[k], steps[k];
    SpentStays(s, step, h, run);
    hide Inv;
    if !IsChild(s.db, j) {
      if step.Replay? {
        NewReplay(s, step, j);
      } else {
        NewChildItem(s, step, j);
        KeyIsUnique(s, h, j);
        assert false;
      }
    }
  }

  /** So until that entry is cleaned up, however long that takes, every finalizer job of the run
      is one it had, or repeats one it had. */
  lemma {:induction false} NoFinalizerUntilCleanup(states: seq<System>, steps: seq<Step>, i: nat, k: nat, h: Id, run: Id, j: Id)
    requires Execution(states, steps) && i <= k <= |steps| && KeySpent(states[i].db, h, run)
    requires forall n :: i <= n < k ==> !(steps[n].CleanEntries? && h in steps[n].gone)
    ensures KeySpent(states[k].db, h, run)
    ensures IsChild(states[k].db, j) && states[k].db.jobs[j].work == Finalize(run) ==>
              exists o :: SameWork(states[i].db, o, states[k].db, j) && (j in states[k].db.replays || o == j)
    decreases k - i
  {
    hide Inv, Enabled, DbAfter, UsedAfter, WorkersAfter, LogAfter;
    if i < k {
      NoFinalizerUntilCleanup(states, steps, i, k - 1, h, run, j);
      var s, step := states[k - 1], steps[k - 1];
      InvHolds(states, steps, k - 1);
      SpentStays(s, step, h, run);
      if IsChild(states[k].db, j) && states[k].db.jobs[j].work == Finalize(run) {
        RebuiltRunWaitsForCleanup(states, steps, k - 1, h, run, j);
        if IsChild(s.db, j) {
          ChildForward(s, step, j);
          var o :| SameWork(states[i].db, o, s.db, j) && (j in s.db.replays || o == j);
          assert SameWork(states[i].db, o, states[k].db, j);
        } else {
          ChildNeedsOpenParent(states, steps, k - 1, j);
          NoFinalizerUntilCleanup(states, steps, i, k - 1, h, run, step.failed);
          var o :| SameWork(states[i].db, o, s.db, step.failed);
          assert SameWork(states[i].db, o, states[k].db, j);
        }
      }
    } else if IsChild(states[k].db, j) {
      assert SameWork(states[i].db, j, states[k].db, j);
    }
  }

  lemma KeyIsUnique(s: System, h: Id, j: Id)
    requires Inv(s) && h in s.db.outbox && j in s.db.outbox && Key(s.db.outbox[h]) == Key(s.db.outbox[j])
    ensures h == j
  {
    hide LogOk, WorkerOk, Bounded, Parents, OneOpenRefresh, RunsOwned, EntriesOwned, JobsMatch, OneJobPerIntent, OneOpenJob, Holders, Locks;
  }

  lemma SpentStays(s: System, step: Step, h: Id, run: Id)
    requires Inv(s) && Enabled(s, step) && KeySpent(s.db, h, run)
    ensures KeySpent(DbAfter(s, step), h, run) || (step.CleanEntries? && h in step.gone)
  {
    EntryUsed(s, h);
    if Terminal(s.db, s.db.outbox[h].parent) {
      EndedOnce(s, step, s.db.outbox[h].parent);
    }
    hide Inv;
    if step.PrepareOne? || step.PrepareDirect? {
      PrepareSpent(s, step, h);
    } else {
      OtherSpent(s, step, h);
    }
  }

  lemma EntryUsed(s: System, h: Id)
    requires Inv(s) && h in s.db.outbox
    ensures h in s.used
  {
    hide LogOk, WorkerOk;
  }

  lemma PrepareSpent(s: System, step: Step, h: Id)
    requires Enabled(s, step) && (step.PrepareOne? || step.PrepareDirect?) && h in s.db.outbox && h in s.used
    ensures var db' := DbAfter(s, step); h in db'.outbox && db'.outbox[h] == s.db.outbox[h]
  {
    if step.PrepareOne? {
      var item := s.workers[step.w].preps[0];
      PrepareKeepsEntry(s.db, s.used, item.intent.snapshot, item.parent, item.intent.partitions, step.latest, step.run, step.stamp, step.ids, h);
    } else {
      PrepareKeepsEntry(s.db, s.used, step.snapshot, step.parent, step.partitions, step.latest, step.run, step.stamp, step.ids, h);
    }
  }

  lemma OtherSpent(s: System, step: Step, h: Id)
    requires Enabled(s, step) && !step.PrepareOne? && !step.PrepareDirect? && h in s.db.outbox && h in s.used
    ensures var db' := DbAfter(s, step);
            || (step.CleanEntries? && h in step.gone)
            || (h in db'.outbox && db'.outbox[h].parent == s.db.outbox[h].parent && db'.outbox[h].intent == s.db.outbox[h].intent
                && (s.db.outbox[h].dispatched ==> db'.outbox[h].dispatched))
  {
    hide PrepareTx;
  }

  lemma PrepareKeepsEntry(db: Db, used: set<Id>, snapshot: Id, parent: Id, requested: int, latest: Option<Id>,
                          run: Id, stamp: nat, ids: seq<Id>, h: Id)
    requires PrepareInput(db, snapshot, latest, ids) && FreshIds(used, run, ids) && h in db.outbox && h in used
    ensures var db' := PrepareTx(db, snapshot, parent, requested, latest, run, stamp, ids).db;
            h in db'.outbox && db'.outbox[h] == db.outbox[h]
  {
    forall p, r, count: nat | count <= |ids|
      ensures h in QueueFrom(db.outbox, p, r, 0, count, ids) && QueueFrom(db.outbox, p, r, 0, count, ids)[h] == db.outbox[h]
    {
      QueueKeepsEntry(db.outbox, p, r, 0, count, ids, h);
    }
  }

  lemma {:induction false} QueueKeepsEntry(outbox: map<Id, Entry>, parent: Id, run: Id, n: nat, count: nat, ids: seq<Id>, h: Id)
    requires n <= count <= |ids| && h in outbox && h !in ids
    ensures h in QueueFrom(outbox, parent, run, n, count, ids) && QueueFrom(outbox, parent, run, n, count, ids)[h] == outbox[h]
    decreases count - n
  {
    if n < count {
      QueueKeepsEntry(InsertEntry(outbox, ids[n], Entry(parent, Partition(run, n), false)), parent, run, n + 1, count, ids, h);
    }
  }
}
