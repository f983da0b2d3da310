/** What each transaction does to each row, and what must have happened for a partition to be
    done. */
module RefreshEffects {
  import opened Common
  import opened RefreshDb
  import opened RefreshSystem
  import opened RefreshInvariant
  import opened RefreshAging
  import opened RefreshTheorems
  import opened RefreshSafety

  // ------------------------------------------------------------- partitions

  /** The run is being processed and its snapshot is staged. */
  predicate Ready(db: Db, run: Id) {
    && run in db.runs && db.runs[run].status.Processing? && db.runs[run].snapshot in db.snapshots
    && db.snapshots[db.runs[run].snapshot].status.Staging? && db.snapshots[db.runs[run].snapshot].staged
  }

  predicate Done(db: Db, run: Id, n: nat) {
    run in db.runs && n < |db.runs[run].done| && db.runs[run].done[n]
  }

  /** Processing a partition makes it done, if its run is ready, and touches nothing else. */
  lemma ProcessExactly(db: Db, run: Id, number: nat)
    ensures var db' := ProcessPartition(db, run, number);
            && db'.jobs == db.jobs && db'.outbox == db.outbox && db'.snapshots == db.snapshots && db'.replays == db.replays
            && db'.runs.Keys == db.runs.Keys
            && (forall r :: r in db.runs ==>
                  |db'.runs[r].done| == |db.runs[r].done| && db'.runs[r].(done := []) == db.runs[r].(done := []))
            && (forall r, n: nat :: r in db.runs && n < |db.runs[r].done| ==>
                  (Done(db', r, n) <==> Done(db, r, n) || (r == run && n == number && Ready(db, run))))
  {
  }

  /** A step creates the run or rebuilds it after it had ended. */
  ghost predicate Restarts(db: Db, db': Db, run: Id) {
    run in db'.runs && (run !in db.runs || (Ended(db.runs[run].status) && db'.runs[run].status.Processing?))
  }

  predicate Processes(s: System, step: Step, run: Id, n: nat) {
    step.Process? && RunningChild(s.db, step.id) && s.db.jobs[step.id].work == Partition(run, n) && Ready(s.db, run)
  }

  /** A run that is there after a preparation was there before with the same partitions, or starts
      with none done. */
  lemma PrepareDone(db: Db, snapshot: Id, parent: Id, requested: int, latest: Option<Id>, newRun: Id, stamp: nat, ids: seq<Id>, r: Id)
    requires PrepareInput(db, snapshot, latest, ids) && newRun !in db.runs
    ensures var db' := PrepareTx(db, snapshot, parent, requested, latest, newRun, stamp, ids).db;
            r in db'.runs ==>
              if Restarts(db, db', r) then forall n: nat :: !Done(db', r, n)
              else r in db.runs && db'.runs[r].done == db.runs[r].done
  {
    hide QueueFrom, IsLatest;
  }

  predicate TouchesRuns(step: Step) {
    || step.DiscardSnapshot? || step.PrepareOne? || step.PrepareDirect? || step.Process? || step.FinalizeRun?
    || step.FailParent? || step.Cancel? || step.CleanRuns?
  }

  lemma RunsUntouched(s: System, step: Step)
    requires Enabled(s, step) && !TouchesRuns(step)
    ensures DbAfter(s, step).runs == s.db.runs
  {
    hide Clash, FreshIds, Dispatchable, Preparable, CleanableEntries, InsertEntry;
  }

  lemma FinalizeKeepsDone(db: Db, id: Id, newerActive: bool, r: Id)
    requires RunningChild(db, id) && db.jobs[id].work.Finalize?
    ensures var runs := FinalizeTx(db, id, newerActive).runs;
            r in runs ==> r in db.runs && runs[r].done == db.runs[r].done && (runs[r].status.Processing? ==> db.runs[r].status.Processing?)
  {
    hide SupersedeLive;
  }

  lemma EndsKeepDone(s: System, step: Step, r: Id)
    requires Enabled(s, step) && r in DbAfter(s, step).runs
    requires step.DiscardSnapshot? || step.FinalizeRun? || step.FailParent? || step.Cancel? || step.CleanRuns?
    ensures r in s.db.runs && DbAfter(s, step).runs[r].done == s.db.runs[r].done
    ensures !Restarts(s.db, DbAfter(s, step), r)
  {
    hide CleanableRuns, CancelChildren, FinalizeTx;
    match step {
      case FinalizeRun(id, newerActive) => FinalizeKeepsDone(s.db, id, newerActive, r);
      case _ =>
    }
  }

  lemma RunsUsed(s: System)
    requires Inv(s)
    ensures s.db.runs.Keys <= s.used
  {
    hide LogOk, WorkerOk;
  }

  /** A partition is done after a step only if it was before and the run goes on, or if the step
      processed it. */
  lemma DoneStep(s: System, step: Step, r: Id, n: nat)
    requires Inv(s) && Enabled(s, step) && Done(DbAfter(s, step), r, n)
    ensures (Done(s.db, r, n) && !Restarts(s.db, DbAfter(s, step), r)) || Processes(s, step, r, n)
  {
    RunsUsed(s);
    hide Inv;
    if !TouchesRuns(step) {
      hide DbAfter, Enabled;
      RunsUntouched(s, step);
    } else if step.PrepareOne? {
      hide PrepareTx, PrepareInput;
      var item := s.workers[step.w].preps[0];
      PrepareDone(s.db, item.intent.snapshot, item.parent, item.intent.partitions, step.latest, step.run, step.stamp, step.ids, r);
    } else if step.PrepareDirect? {
      hide PrepareTx, PrepareInput;
      PrepareDone(s.db, step.snapshot, step.parent, step.partitions, step.latest, step.run, step.stamp, step.ids, r);
    } else if step.Process? {
      hide ProcessPartition;
      ProcessExactly(s.db, s.db.jobs[step.id].work.run, s.db.jobs[step.id].work.number);
    } else {
      hide DbAfter, Enabled;
      EndsKeepDone(s, step, r);
    }
  }

  /** Step `i` processed the partition, and the run was neither created nor rebuilt since. */
  ghost predicate ProcessedAt(states: seq<System>, steps: seq<Step>, i: nat, k: nat, r: Id, n: nat)
    requires Execution(states, steps) && k <= |steps|
  {
    i < k && Processes(states[i], steps[i], r, n) && forall m :: i < m < k ==> !Restarts(states[m].db, states[m + 1].db, r)
  }

  /** In every execution a partition that is done was processed by a running job of that very
      partition, since its run was created or last rebuilt. */
  lemma {:induction false} DoneWasProcessed(states: seq<System>, steps: seq<Step>, k: nat, r: Id, n: nat)
    requires Execution(states, steps) && k <= |steps| && Done(states[k].db, r, n)
    ensures exists i: nat :: ProcessedAt(states, steps, i, k, r, n)
    decreases k
  {
    hide Inv, Enabled, DbAfter, UsedAfter, WorkersAfter, LogAfter, Restarts, Processes, Done;
    if k == 0 {
      NothingDone(states[0], r, n);
    } else {
      InvHolds(states, steps, k - 1);
      DoneStep(states[k - 1], steps[k - 1], r, n);
      if Processes(states[k - 1], steps[k - 1], r, n) {
        assert ProcessedAt(states, steps, k - 1, k, r, n);
      } else {
        DoneWasProcessed(states, steps, k - 1, r, n);
        var i: nat :| ProcessedAt(states, steps, i, k - 1, r, n);
        assert states[k - 1 + 1] == states[k];
        assert ProcessedAt(states, steps, i, k, r, n);
      }
    }
  }

  lemma NothingDone(s: System, r: Id, n: nat)
    requires Init(s)
    ensures !Done(s.db, r, n)
  {
  }

  /** So a dispatch adds the finalizer of a run only after each of its partitions was processed by
      a job of its own. */
  lemma FinalizerAfterProcessing(states: seq<System>, steps: seq<Step>, k: nat, j: Id, run: Id, n: nat)
    requires Execution(states, steps) && k < |steps| && !steps[k].Replay?
    requires IsChild(states[k + 1].db, j) && !IsChild(states[k].db, j) && states[k + 1].db.jobs[j].work == Finalize(run)
    requires run in states[k].db.runs && n < |states[k].db.runs[run].done|
    ensures exists i: nat :: ProcessedAt(states, steps, i, k, run, n)
  {
    FinalizerAppearsAfterPartitions(states, steps, k, j);
    hide Enabled, DbAfter, After;
    DoneWasProcessed(states, steps, k, run, n);
  }

  // ------------------------------------------------------------ transactions

  /** A completed partition job has succeeded; no other job, run or snapshot changes. */
  lemma CompletionExactly(db: Db, id: Id, entry: Id)
    requires RunningChild(db, id) && db.jobs[id].work.Partition? && IsRefresh(db, db.jobs[id].parent)
    ensures var db' := CompletePartition(db, id, entry);
            && db'.runs == db.runs && db'.snapshots == db.snapshots && db'.replays == db.replays && db'.jobs.Keys == db.jobs.Keys
            && db'.jobs[id] == Child(db.jobs[id].parent, db.jobs[id].work, JobStatus.Succeeded, db.jobs[id].locked)
            && (forall j :: j in db.jobs && j != id ==> db'.jobs[j] == db.jobs[j])
            && (forall e :: e in db'.outbox && e != entry ==> e in db.outbox && db'.outbox[e] == db.outbox[e])
  {
  }

  /** The refresh that a cancellation of the job is about. */
  function FamilyOf(db: Db, id: Id): Id
    requires id in db.jobs
  {
    if db.jobs[id].Refresh? then id else db.jobs[id].parent
  }

  /** A cancellation of an open job takes effect exactly if neither the job nor its refresh is
      locked by a publication. */
  predicate Cancellable(db: Db, id: Id) {
    && id in db.jobs && Open(db.jobs[id].status) && !db.jobs[id].locked
    && IsRefresh(db, FamilyOf(db, id)) && !db.jobs[FamilyOf(db, id)].locked
  }

  /** It then cancels exactly the refresh, if it is open, its open children without a lock and its
      runs in processing; else it changes nothing. */
  lemma CancelExactly(db: Db, id: Id)
    requires Parents(db)
    ensures var db' := CancelTx(db, id);
            && (!Cancellable(db, id) ==> db' == db)
            && db'.outbox == db.outbox && db'.snapshots == db.snapshots && db'.replays == db.replays
            && db'.jobs.Keys == db.jobs.Keys && db'.runs.Keys == db.runs.Keys
            && (Cancellable(db, id) ==>
                  var p := FamilyOf(db, id);
                  && (forall j :: j in db.jobs ==>
                        db'.jobs[j] == if Open(db.jobs[j].status) && (j == p || (IsChild(db, j) && db.jobs[j].parent == p && !db.jobs[j].locked))
                                       then db.jobs[j].(status := JobStatus.Cancelled) else db.jobs[j])
                  && (forall r :: r in db.runs ==>
                        db'.runs[r] == if db.runs[r].status.Processing? && db.runs[r].parent == Some(p)
                                       then db.runs[r].(status := RunCancelled) else db.runs[r]))
  {
    if id in db.jobs && db.jobs[id].Child? {
      assert IsChild(db, id);
    }
  }

  /** Failing a refresh that was neither cancelled nor completed fails it if it is open, cancels its
      open children without a lock, and fails those of the listed runs that are its own and in
      processing; nothing else changes. */
  lemma FailExactly(db: Db, p: Id, ending: set<Id>)
    ensures var db' := FailParentTx(db, p, ending);
            var failing := IsRefresh(db, p) && !db.jobs[p].status.Cancelled? && !db.jobs[p].status.Succeeded?;
            && db'.outbox == db.outbox && db'.snapshots == db.snapshots && db'.replays == db.replays
            && db'.jobs.Keys == db.jobs.Keys && db'.runs.Keys == db.runs.Keys
            && (forall j :: j in db.jobs ==>
                  db'.jobs[j] == if failing && j == p && Open(db.jobs[j].status) then Refresh(db.jobs[j].source, JobStatus.Failed, false)
                                 else if failing && IsChild(db, j) && db.jobs[j].parent == p && Open(db.jobs[j].status) && !db.jobs[j].locked
                                 then db.jobs[j].(status := JobStatus.Cancelled) else db.jobs[j])
            && (forall r :: r in db.runs ==>
                  db'.runs[r] == if failing && r in ending && db.runs[r].parent == Some(p) && db.runs[r].status.Processing?
                                 then db.runs[r].(status := RunFailed) else db.runs[r])
  {
  }

  /** Completing a refresh that was not cancelled makes it succeeded and unlocked; nothing else
      changes. */
  lemma CompleteParentExactly(db: Db, p: Id)
    ensures var db' := CompleteParentTx(db, p);
            && db'.(jobs := db.jobs) == db && db'.jobs.Keys == db.jobs.Keys
            && (!IsRefresh(db, p) ==> db' == db)
            && (forall j :: j in db.jobs && j != p ==> db'.jobs[j] == db.jobs[j])
            && (IsRefresh(db, p) ==>
                  db'.jobs[p] == if db.jobs[p].status.Cancelled? || db.jobs[p].status.Succeeded? then db.jobs[p]
                                 else Refresh(db.jobs[p].source, JobStatus.Succeeded, false))
  {
  }

  lemma FinalizeFrame(db: Db, id: Id, newerActive: bool)
    requires RunningChild(db, id) && db.jobs[id].work.Finalize? && IsRefresh(db, db.jobs[id].parent)
    ensures var db' := FinalizeTx(db, id, newerActive);
            && db'.outbox == db.outbox && db'.replays == db.replays
            && db'.jobs.Keys == db.jobs.Keys && db'.runs.Keys == db.runs.Keys
            && (forall j :: j in db.jobs && j != id && j != db.jobs[id].parent ==> db'.jobs[j] == db.jobs[j])
            && (forall r :: r in db.runs && r != db.jobs[id].work.run ==> db'.runs[r] == db.runs[r])
  {
    hide SupersedeLive, EndRuns, PublishRun;
    var run := db.jobs[id].work.run;
    EndFrame(db.runs, run);
    if Publishable(Lock(Lock(db, db.jobs[id].parent), id), run) {
      PublishFrame(Lock(Lock(db, db.jobs[id].parent), id), run, newerActive);
    }
    hide Publishable;
  }

  lemma EndFrame(runs: map<Id, RefreshDb.Run>, run: Id)
    ensures EndRuns(runs, {run}, RunCancelled).Keys == runs.Keys
    ensures forall r :: r in runs && r != run ==> EndRuns(runs, {run}, RunCancelled)[r] == runs[r]
  {
  }

  lemma PublishFrame(db: Db, run: Id, newerActive: bool)
    requires Publishable(db, run)
    ensures var db' := PublishRun(db, run, newerActive);
            && db'.jobs == db.jobs && db'.outbox == db.outbox && db'.replays == db.replays && db'.runs.Keys == db.runs.Keys
            && forall r :: r in db.runs && r != run ==> db'.runs[r] == db.runs[r]
  {
  }

  /** The run is processed, whole and staged with a live kind. */
  predicate Finished(db: Db, run: Id) {
    Ready(db, run) && AllDone(db.runs[run]) && db.snapshots[db.runs[run].snapshot].parallel
  }

  /** A finalizer whose refresh does not run is cancelled with its run in processing.  One whose run
      is finished locks itself and its refresh and ends the run: published, or cancelled behind a
      newer active snapshot.  Any other changes nothing. */
  lemma FinalizeExactly(db: Db, id: Id, newerActive: bool)
    requires RunningChild(db, id) && db.jobs[id].work.Finalize? && IsRefresh(db, db.jobs[id].parent)
    ensures var db' := FinalizeTx(db, id, newerActive);
            var Child(p, work, _, locked) := db.jobs[id]; var Refresh(source, status, _) := db.jobs[p]; var run := work.run;
            if !status.Running? then
              && db'.jobs[id] == Child(p, work, JobStatus.Cancelled, locked) && db'.jobs[p] == db.jobs[p]
              && db'.snapshots == db.snapshots
              && (run in db.runs ==>
                    db'.runs[run] == if db.runs[run].status.Processing? then db.runs[run].(status := RunCancelled) else db.runs[run])
            else if Finished(db, run) then
              && db'.jobs[id] == Child(p, work, JobStatus.Running, true) && db'.jobs[p] == Refresh(source, JobStatus.Running, true)
              && db'.runs[run] == db.runs[run].(status := if newerActive then RunCancelled else Published)
            else db' == db
  {
    hide SupersedeLive;
  }

  /** The run that a preparation leaves: the newest of the snapshot unless that was cancelled, else
      a new one.  A new one has the requested number of partitions, between
      1 and 64, a rebuilt one as many as it had, and both are in processing for the parent. */
  lemma PreparedRun(db: Db, snapshot: Id, parent: Id, requested: int, latest: Option<Id>, newRun: Id, stamp: nat, ids: seq<Id>)
    requires PrepareInput(db, snapshot, latest, ids)
    requires Preparing(db, snapshot) && (CanReload(db, latest) || db.snapshots[snapshot].keys > 0)
    ensures var db' := PrepareTx(db, snapshot, parent, requested, latest, newRun, stamp, ids).db;
            var r := if CanReload(db, latest) then latest.value else newRun;
            && r in db'.runs && db'.runs[r].snapshot == snapshot && db'.runs[r].status.Processing?
            && (forall q :: q in db.runs && q != r ==> q in db'.runs && db'.runs[q] == db.runs[q])
            && (!CanReload(db, latest) ==>
                  && db'.runs[r].account == db.snapshots[snapshot].account && db'.runs[r].created == stamp
                  && |db'.runs[r].done| == (if requested < 1 then 1 else if requested > 64 then 64 else requested))
            && (CanReload(db, latest) ==>
                  && (forall q :: q in db.runs && db.runs[q].snapshot == snapshot ==> db.runs[q].created <= db.runs[r].created)
                  && |db'.runs[r].done| == |db.runs[r].done| && db'.runs[r].account == db.runs[r].account
                  && (db.runs[r].status.Processing? ==> db'.runs[r] == db.runs[r]))
  {
    hide QueueFrom;
  }

  /** The snapshot is of a live kind and staged. */
  predicate Preparing(db: Db, snapshot: Id) {
    && snapshot in db.snapshots && db.snapshots[snapshot].parallel && db.snapshots[snapshot].status.Staging?
    && db.snapshots[snapshot].staged
  }

  /** A preparation of any other snapshot changes nothing, and succeeds exactly if it is of a live
      kind and active; one without supported keys and without a run is rejected. */
  lemma PrepareRefuses(db: Db, snapshot: Id, parent: Id, requested: int, latest: Option<Id>, newRun: Id, stamp: nat, ids: seq<Id>)
    requires PrepareInput(db, snapshot, latest, ids)
    ensures var r := PrepareTx(db, snapshot, parent, requested, latest, newRun, stamp, ids);
            && (!Preparing(db, snapshot) ==>
                  r.db == db && (r.ok <==> snapshot in db.snapshots && db.snapshots[snapshot].parallel && db.snapshots[snapshot].status.Active?))
            && (Preparing(db, snapshot) && !CanReload(db, latest) && db.snapshots[snapshot].keys == 0 ==>
                  && !r.ok && r.db.(snapshots := db.snapshots) == db
                  && r.db.snapshots == db.snapshots[snapshot := db.snapshots[snapshot].(status := Rejected)])
            && (Preparing(db, snapshot) && (CanReload(db, latest) || db.snapshots[snapshot].keys > 0) ==>
                  r.ok && r.db.jobs == db.jobs && r.db.snapshots == db.snapshots && r.db.replays == db.replays)
  {
    hide QueueFrom;
  }

  /** Staging queues one preparation for the parent and the snapshot, with 1 to 64 partitions,
      exactly if there is none yet. */
  lemma StageExactly(db: Db, parent: Id, snapshot: Id, partitions: int, id: Id)
    requires id !in db.outbox
    ensures var db' := StageIntent(db, parent, snapshot, partitions, id);
            var there := exists e :: e in db.outbox && db.outbox[e].parent == parent && db.outbox[e].intent.Prepare?
                                     && db.outbox[e].intent.snapshot == snapshot;
            var count := if partitions < 1 then 1 else if partitions > 64 then 64 else partitions;
            db' == if there then db else db.(outbox := db.outbox[id := Entry(parent, Prepare(snapshot, count), false)])
  {
    if e :| e in db.outbox && db.outbox[e].parent == parent && db.outbox[e].intent.Prepare? && db.outbox[e].intent.snapshot == snapshot {
      assert Key(db.outbox[e]) == StageKey(parent, snapshot);
    }
  }

  // -------------------------------------------------------------- job states

  ghost predicate FromRunning(db: Db, db': Db, j: Id) {
    IsChild(db', j) && (db'.jobs[j].status.Succeeded? || db'.jobs[j].status.Failed?) ==>
      IsChild(db, j) && (db.jobs[j].status.Running? || db.jobs[j].status == db'.jobs[j].status)
  }

  /** A job ends in success or failure only from the running state. */
  lemma ResultFromRunning(s: System, step: Step, j: Id)
    requires Inv(s) && Enabled(s, step)
    ensures FromRunning(s.db, DbAfter(s, step), j)
  {
    UsedJobs(s);
    hide Inv, DbAfter, Enabled;
    if JobFree(step) {
      JobFreeKeeps(s, step);
    } else if Aging(step) {
      AgingResult(s, step, j);
    } else {
      AddingResult(s, step, j);
    }
  }

  lemma AddingResult(s: System, step: Step, j: Id)
    requires Enabled(s, step) && !JobFree(step) && !Aging(step)
    ensures FromRunning(s.db, DbAfter(s, step), j)
  {
    hide Clash, InsertEntry;
    match step {
      case NewRefresh(id, source) =>
      case DispatchOne(w) =>
      case Complete(id, entry) =>
      case Replay(failed, id) =>
    }
  }

  lemma AgingResult(s: System, step: Step, j: Id)
    requires Enabled(s, step) && Aging(step)
    ensures FromRunning(s.db, DbAfter(s, step), j)
  {
    hide EndRuns, ProcessPartition, FinalizeTx, CancelTx, FailParentTx, CompleteParentTx;
    match step {
      case FinalizeRun(id, newerActive) => FinalizeResult(s.db, id, newerActive, j);
      case Process(id) => ProcessExactly(s.db, s.db.jobs[id].work.run, s.db.jobs[id].work.number);
      case Cancel(id) => CancelResult(s.db, id, j);
      case FailParent(id, ending) => FailResult(s.db, id, ending, j);
      case CompleteParent(id) => CompleteParentExactly(s.db, id);
      case Lifecycle(id, to) =>
      case BeginActivation(id) =>
    }
  }

  lemma FailResult(db: Db, p: Id, ending: set<Id>, j: Id)
    ensures FromRunning(db, FailParentTx(db, p, ending), j)
  {
    hide EndRuns;
  }

  lemma FinalizeResult(db: Db, id: Id, newerActive: bool, j: Id)
    requires RunningChild(db, id) && db.jobs[id].work.Finalize?
    ensures FromRunning(db, FinalizeTx(db, id, newerActive), j)
  {
    hide SupersedeLive;
  }

  lemma CancelResult(db: Db, id: Id, j: Id)
    ensures FromRunning(db, CancelTx(db, id), j)
  {
    hide EndRuns;
  }

  /** In every execution a child job that has succeeded or failed was running before. */
  lemma {:induction false} ResultWasRunning(states: seq<System>, steps: seq<Step>, k: nat, j: Id)
    requires Execution(states, steps) && k <= |steps| && IsChild(states[k].db, j)
    requires states[k].db.jobs[j].status.Succeeded? || states[k].db.jobs[j].status.Failed?
    ensures exists i :: 0 <= i < k && RunningChild(states[i].db, j)
    decreases k
  {
    hide Inv, Enabled, DbAfter, UsedAfter, WorkersAfter, LogAfter;
    if k == 0 {
      assert false;
    } else {
      InvHolds(states, steps, k - 1);
      ResultFromRunning(states[k - 1], steps[k - 1], j);
      if !RunningChild(states[k - 1].db, j) {
        ResultWasRunning(states, steps, k - 1, j);
      }
    }
  }
}
