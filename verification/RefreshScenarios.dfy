/** Reachable states in which the code does not do what one would expect of it. */
module RefreshScenarios {
  import opened Common
  import opened RefreshDb
  import opened RefreshSystem
  import opened RefreshInvariant
  import opened RefreshAging
  import opened RefreshSafety
  import opened RefreshStranding
  import OutboxLoops

  ghost predicate Reachable(s: System) {
    exists states, steps :: Execution(states, steps) && states[|steps|] == s
  }

  lemma ReachStep(s: System, step: Step)
    requires Reachable(s) && Enabled(s, step)
    ensures Reachable(After(s, step))
  {
    var states, steps :| Execution(states, steps) && states[|steps|] == s;
    hide Enabled, After, Init;
    assert Execution(states + [After(s, step)], steps + [step]);
  }

  /** A reachable state with one idle dispatcher, these tables and no identifier from `next` on. */
  ghost predicate At(s: System, db: Db, next: Id) {
    Reachable(s) && s.db == db && s.workers == map[0 := Idle] && forall x :: x in s.used ==> x < next
  }

  lemma Begin() returns (s: System)
    ensures At(s, Db(map[], map[], map[], map[], map[]), 0)
  {
    s := System(Db(map[], map[], map[], map[], map[]), {}, map[0 := Idle], []);
    assert Execution([s], []);
    assert [s][0] == s;
  }

  // ------------------------------------------------------------------ moves

  lemma Move(s: System, db: Db, next: Id, step: Step, db': Db, next': Id) returns (s': System)
    requires At(s, db, next) && Enabled(s, step) && DbAfter(s, step) == db' && WorkersAfter(s, step) == s.workers
    requires next <= next' && forall x :: x in UsedAfter(s, step) ==> x < next'
    ensures At(s', db', next')
  {
    ReachStep(s, step);
    s' := After(s, step);
  }

  lemma Life(s: System, db: Db, next: Id, id: Id, to: JobStatus) returns (s': System)
    requires At(s, db, next) && id in db.jobs && LifecycleMove(db.jobs[id].status, to)
    ensures At(s', SetStatus(db, id, to), next)
  {
    hide Reachable;
    s' := Move(s, db, next, Lifecycle(id, to), SetStatus(db, id, to), next);
  }

  lemma StartRefresh(s: System, db: Db, next: Id, id: Id, source: Id) returns (s': System)
    requires At(s, db, next) && next <= id
    requires forall j :: j in db.jobs && db.jobs[j].Refresh? && Open(db.jobs[j].status) ==> db.jobs[j].source != source
    ensures At(s', db.(jobs := db.jobs[id := Refresh(source, Queued, false)]), id + 1)
  {
    hide Reachable;
    s' := Move(s, db, next, NewRefresh(id, source), db.(jobs := db.jobs[id := Refresh(source, Queued, false)]), id + 1);
  }

  lemma Store(s: System, db: Db, next: Id, snapshots: map<Id, Snapshot>, added: set<Id>, next': Id) returns (s': System)
    requires At(s, db, next) && next <= next' && forall x :: x in added ==> next <= x < next'
    requires snapshots.Keys <= db.snapshots.Keys + added
    requires forall id :: id in snapshots && id in db.snapshots ==> snapshots[id].account == db.snapshots[id].account
    requires forall r :: r in db.runs ==> db.runs[r].snapshot in snapshots
    ensures At(s', db.(snapshots := snapshots), next')
  {
    hide Reachable;
    s' := Move(s, db, next, StoreSnapshots(snapshots, added), db.(snapshots := snapshots), next');
  }

  function FreshFrom(from: Id): (ids: seq<Id>)
    ensures |ids| == MAX_PARTITIONS && Distinct(ids)
    ensures forall i :: 0 <= i < |ids| ==> ids[i] == from + i
  {
    seq(MAX_PARTITIONS, i requires 0 <= i => from + i)
  }

  lemma PrepareNow(s: System, db: Db, next: Id, parent: Id, snapshot: Id, partitions: int, latest: Option<Id>)
    returns (s': System)
    requires At(s, db, next) && IsRefresh(db, parent) && db.jobs[parent].status.Running?
    requires snapshot in db.snapshots && db.snapshots[snapshot].account == db.jobs[parent].source && snapshot in s.used
    requires PrepareInput(db, snapshot, latest, FreshFrom(next + 1))
    ensures At(s', PrepareTx(db, snapshot, parent, partitions, latest, next, 0, FreshFrom(next + 1)).db, next + 65)
    ensures s.used <= s'.used
  {
    hide Reachable, PrepareTx, PrepareInput;
    var step := PrepareDirect(parent, snapshot, partitions, latest, next, 0, FreshFrom(next + 1));
    assert forall i :: 0 <= i < |step.ids| ==> step.ids[i] !in s.used;
    ReachStep(s, step);
    s' := After(s, step);
  }

  /** One call of the dispatcher that finds one row. */
  lemma DispatchNow(s: System, db: Db, next: Id, e: Id) returns (s': System)
    requires At(s, db, next) && Dispatchable(db, e)
    ensures At(s', DispatchTx(db, e, db.outbox[e].parent, db.outbox[e].intent), next) && s'.used == s.used
  {
    var before := DispatchRead(s, db, next, e);
    hide Reachable, Clash, Dispatchable;
    ReachStep(before, DispatchOne(0));
    var after := After(before, DispatchOne(0));
    ReachStep(after, Stop(0));
    s' := After(after, Stop(0));
  }

  /** The dispatcher has read the row and is about to dispatch it. */
  lemma DispatchRead(s: System, db: Db, next: Id, e: Id) returns (s': System)
    requires At(s, db, next) && Dispatchable(db, e)
    ensures Reachable(s') && s'.db == db && s'.used == s.used && s'.workers == map[0 := Dispatching([ItemOf(db, e)])]
    ensures Enabled(s', DispatchOne(0))
  {
    hide Reachable, Clash;
    ReachStep(s, ReadPreparations(0, []));
    var s1 := After(s, ReadPreparations(0, []));
    ReachStep(s1, ReadEntries(0, [ItemOf(db, e)]));
    s' := After(s1, ReadEntries(0, [ItemOf(db, e)]));
  }

  lemma ProcessNow(s: System, db: Db, next: Id, id: Id) returns (s': System)
    requires At(s, db, next) && RunningChild(db, id) && db.jobs[id].work.Partition?
    ensures At(s', ProcessPartition(db, db.jobs[id].work.run, db.jobs[id].work.number), next)
  {
    hide Reachable, ProcessPartition;
    s' := Move(s, db, next, Process(id), ProcessPartition(db, db.jobs[id].work.run, db.jobs[id].work.number), next);
  }

  lemma CompleteNow(s: System, db: Db, next: Id, id: Id) returns (s': System)
    requires At(s, db, next) && RunningChild(db, id) && db.jobs[id].work.Partition?
    ensures At(s', CompletePartition(db, id, next), next + 1)
  {
    hide Reachable, CompletePartition;
    s' := Move(s, db, next, Complete(id, next), CompletePartition(db, id, next), next + 1);
  }

  lemma FailNow(s: System, db: Db, next: Id, parent: Id, ending: set<Id>) returns (s': System)
    requires At(s, db, next)
    ensures At(s', FailParentTx(db, parent, ending), next)
  {
    hide Reachable, FailParentTx;
    s' := Move(s, db, next, FailParent(parent, ending), FailParentTx(db, parent, ending), next);
  }

  lemma FinalizeNow(s: System, db: Db, next: Id, id: Id) returns (s': System)
    requires At(s, db, next) && RunningChild(db, id) && db.jobs[id].work.Finalize?
    ensures At(s', FinalizeTx(db, id, false), next)
  {
    hide Reachable, FinalizeTx;
    s' := Move(s, db, next, FinalizeRun(id, false), FinalizeTx(db, id, false), next);
  }

  // --------------------------------------------------- one partition at work

  const SOURCE: Id := 7

  function OneSnapshot(status: SnapshotStatus): Snapshot {
    Snapshot(SOURCE, status, true, true, 1)
  }

  function OneRun(parent: Id, status: RunStatus, done: seq<bool>): RefreshDb.Run {
    RefreshDb.Run(SOURCE, 2, Some(parent), status, 0, done)
  }

  /** Refresh 1 is running with run 3 of snapshot 2. */
  function Tables(jobs: map<Id, Job>, outbox: map<Id, Entry>, run: RefreshDb.Run): Db {
    Db(jobs, outbox, map[3 := run], map[2 := OneSnapshot(Staging)], map[])
  }

  lemma Prepared(partitions: nat) returns (s: System)
    requires 1 <= partitions <= 2
    ensures At(s, Tables(map[1 := Refresh(SOURCE, Running, false)],
                         if partitions == 1 then map[4 := Entry(1, Partition(3, 0), false)]
                         else map[4 := Entry(1, Partition(3, 0), false), 5 := Entry(1, Partition(3, 1), false)],
                         OneRun(1, Processing, if partitions == 1 then [false] else [false, false])), 68)
  {
    hide Reachable;
    s := Begin();
    var db := Db(map[], map[], map[], map[], map[]);
    s := StartRefresh(s, db, 0, 1, SOURCE);
    db := db.(jobs := db.jobs[1 := Refresh(SOURCE, Queued, false)]);
    s := Life(s, db, 2, 1, Running);
    db := SetStatus(db, 1, Running);
    s := StoreFirst(s, db);
    db := db.(snapshots := map[2 := OneSnapshot(Staging)]);
    s := PrepareNow(s, db, 3, 1, 2, partitions, None);
    QueueSmall(map[], 1, 3, partitions, FreshFrom(4));
    assert seq(Clamp(partitions), _ => false) == if partitions == 1 then [false] else [false, false];
  }

  lemma StoreFirst(s: System, db: Db) returns (s': System)
    requires At(s, db, 2) && db.snapshots == map[] && db.runs == map[]
    ensures At(s', db.(snapshots := map[2 := OneSnapshot(Staging)]), 3) && 2 in s'.used
  {
    hide Reachable;
    var step := StoreSnapshots(map[2 := OneSnapshot(Staging)], {2});
    ReachStep(s, step);
    s' := After(s, step);
  }

  /** Queueing one or two partitions of which none is queued. */
  lemma QueueSmall(outbox: map<Id, Entry>, parent: Id, run: Id, count: nat, ids: seq<Id>)
    requires 1 <= count <= 2 && 2 <= |ids| && ids[0] != ids[1]
    requires forall n :: !KeyTaken(outbox, PartitionKey(parent, run, n))
    ensures QueueFrom(outbox, parent, run, 0, count, ids) ==
              if count == 1 then outbox[ids[0] := Entry(parent, Partition(run, 0), false)]
              else outbox[ids[0] := Entry(parent, Partition(run, 0), false)][ids[1] := Entry(parent, Partition(run, 1), false)]
  {
    var first := outbox[ids[0] := Entry(parent, Partition(run, 0), false)];
    assert InsertEntry(outbox, ids[0], Entry(parent, Partition(run, 0), false)) == first;
    assert !KeyTaken(first, PartitionKey(parent, run, 1)) by {
      assert !KeyTaken(outbox, PartitionKey(parent, run, 1));
      assert forall k :: k in first && k != ids[0] ==> k in outbox && first[k] == outbox[k];
    }
  }

  function Worker(parent: Id, work: Intent, status: JobStatus): Job {
    Child(parent, work, status, false)
  }

  function Parent(status: JobStatus): Job {
    Refresh(SOURCE, status, false)
  }

  const P0 := Partition(3, 0)
  const P1 := Partition(3, 1)
  const FINAL := Finalize(3)

  /** The partition job 4 of refresh 1 is queued. */
  lemma OneDispatched() returns (s: System)
    ensures At(s, Tables(map[1 := Parent(Running), 4 := Worker(1, P0, Queued)], map[4 := Entry(1, P0, true)],
                         OneRun(1, Processing, [false])), 68)
  {
    hide Reachable;
    s := Prepared(1);
    var db := Tables(map[1 := Parent(Running)], map[4 := Entry(1, P0, false)], OneRun(1, Processing, [false]));
    s := DispatchNow(s, db, 68, 4);
    assert DispatchTx(db, 4, 1, P0).jobs == map[1 := Parent(Running), 4 := Worker(1, P0, Queued)];
    assert DispatchTx(db, 4, 1, P0).outbox == map[4 := Entry(1, P0, true)];
  }

  // ------------------------------------------------------------ dead letters

  /** The partition job has failed for good; the refresh is still running. */
  lemma OneFailed() returns (s: System)
    ensures At(s, Tables(map[1 := Parent(Running), 4 := Worker(1, P0, Failed)], map[4 := Entry(1, P0, true)],
                         OneRun(1, Processing, [false])), 68)
  {
    hide Reachable;
    s := OneDispatched();
    var db := Tables(map[1 := Parent(Running), 4 := Worker(1, P0, Queued)], map[4 := Entry(1, P0, true)],
                     OneRun(1, Processing, [false]));
    s := Life(s, db, 68, 4, Running);
    db := SetStatus(db, 4, Running);
    s := Life(s, db, 68, 4, Failed);
    assert SetStatus(db, 4, Failed).jobs == map[1 := Parent(Running), 4 := Worker(1, P0, Failed)];
  }

  /** The refresh has failed with its partition job. */
  lemma FamilyFailed() returns (s: System)
    ensures At(s, Tables(map[1 := Parent(Failed), 4 := Worker(1, P0, Failed)], map[4 := Entry(1, P0, true)],
                         OneRun(1, RunFailed, [false])), 68)
  {
    hide At;
    s := OneFailed();
    var db := Tables(map[1 := Parent(Running), 4 := Worker(1, P0, Failed)], map[4 := Entry(1, P0, true)],
                     OneRun(1, Processing, [false]));
    s := FailNow(s, db, 68, 1, {3});
    assert FailParentTx(db, 1, {3}) == Tables(map[1 := Parent(Failed), 4 := Worker(1, P0, Failed)], map[4 := Entry(1, P0, true)],
                                              OneRun(1, RunFailed, [false]));
  }

  /** A refresh fails with its partition job, and an operator replays the job: a second job of the
      same work is queued under a parent that has ended. */
  lemma ReplayUnderFailedParent() returns (s: System, step: Step)
    ensures Reachable(s) && Enabled(s, step) && step.Replay? && Terminal(s.db, 1)
    ensures var db' := DbAfter(s, step);
            && !IsChild(s.db, 68) && ChildOf(db', 68, 1) && Open(db'.jobs[68].status)
            && SameWork(db', 4, db', 68) && IsDispatched(db', 4)
  {
    s := FamilyFailed();
    hide Reachable;
    step := Replay(4, 68);
  }

  lemma CancelNow(s: System, db: Db, next: Id, id: Id) returns (s': System)
    requires At(s, db, next)
    ensures At(s', CancelTx(db, id), next)
  {
    hide Reachable, CancelTx;
    s' := Move(s, db, next, Cancel(id), CancelTx(db, id), next);
  }

  /** An operator cancels the refresh instead. */
  lemma FamilyCancelled() returns (s: System)
    ensures At(s, Tables(map[1 := Parent(Cancelled), 4 := Worker(1, P0, Failed)], map[4 := Entry(1, P0, true)],
                         OneRun(1, RunCancelled, [false])), 68)
  {
    hide At;
    s := OneFailed();
    var db := Tables(map[1 := Parent(Running), 4 := Worker(1, P0, Failed)], map[4 := Entry(1, P0, true)],
                     OneRun(1, Processing, [false]));
    s := CancelNow(s, db, 68, 1);
    assert CancelTx(db, 1) == Tables(map[1 := Parent(Cancelled), 4 := Worker(1, P0, Failed)], map[4 := Entry(1, P0, true)],
                                     OneRun(1, RunCancelled, [false]));
  }

  /** The replay then gives a cancelled refresh a queued child. */
  lemma ReplayUnderCancelledParent() returns (s: System)
    ensures Reachable(s) && ChildOf(s.db, 68, 1) && Open(s.db.jobs[68].status)
    ensures IsRefresh(s.db, 1) && s.db.jobs[1].status.Cancelled?
  {
    s := FamilyCancelled();
    hide Reachable;
    var db := Tables(map[1 := Parent(Cancelled), 4 := Worker(1, P0, Failed)], map[4 := Entry(1, P0, true)],
                     OneRun(1, RunCancelled, [false]));
    s := ReplayNow(s, db, 68, 4);
  }

  lemma ReplayNow(s: System, db: Db, next: Id, failed: Id) returns (s': System)
    requires At(s, db, next) && Replayable(db, failed)
    ensures At(s', ReplayTx(db, failed, next), next + 1)
  {
    hide Reachable;
    s' := Move(s, db, next, Replay(failed, next), ReplayTx(db, failed, next), next + 1);
  }

  // ------------------------------------------------------ a dead parent's run

  /** Refresh 1 fails on its own account, so its run stays in processing; refresh 68 prepares the
      same snapshot and gets no intent. */
  lemma RunOfDeadParent() returns (s: System, step: Step)
    ensures Reachable(s) && Enabled(s, step) && step.PrepareDirect? && step.parent == 68 && ParentOpen(s.db, 68)
    ensures Terminal(s.db, 1) && 3 in s.db.runs && s.db.runs[3].status.Processing? && s.db.runs[3].parent == Some(1)
    ensures forall e :: e in DbAfter(s, step).outbox ==> DbAfter(s, step).outbox[e].parent != 68
  {
    hide At;
    s := OneDispatched();
    var outbox := map[4 := Entry(1, P0, true)];
    var run := OneRun(1, Processing, [false]);
    var db := Tables(map[1 := Parent(Running), 4 := Worker(1, P0, Queued)], outbox, run);
    s := Life(s, db, 68, 1, Failed);
    var failed := Tables(map[1 := Parent(Failed), 4 := Worker(1, P0, Queued)], outbox, run);
    assert SetStatus(db, 1, Failed) == failed;
    s := StartRefresh(s, failed, 68, 68, SOURCE);
    var started := Tables(failed.jobs[68 := Parent(Queued)], outbox, run);
    assert failed.(jobs := failed.jobs[68 := Refresh(SOURCE, Queued, false)]) == started;
    s := Life(s, started, 69, 68, Running);
    var running := Tables(failed.jobs[68 := Parent(Running)], outbox, run);
    assert SetStatus(started, 68, Running) == running;
    step := DeadPreparation(s, running);
  }

  lemma DeadPreparation(s: System, running: Db) returns (step: Step)
    requires At(s, running, 69)
    requires running == Tables(map[1 := Parent(Failed), 4 := Worker(1, P0, Queued), 68 := Parent(Running)],
                               map[4 := Entry(1, P0, true)], OneRun(1, Processing, [false]))
    ensures Reachable(s) && s.db == running && Enabled(s, step) && step.PrepareDirect? && step.parent == 68
    ensures forall e :: e in DbAfter(s, step).outbox ==> DbAfter(s, step).outbox[e].parent != 68
  {
    SnapshotUsed(s);
    hide Reachable;
    step := PrepareDirect(68, 2, 1, Some(3), 69, 0, FreshFrom(70));
    assert forall i :: 0 <= i < |step.ids| ==> step.ids[i] !in s.used;
    assert Key(running.outbox[4]) == PartitionKey(1, 3, 0);
    QueueAdds(running.outbox, 1, 3, 0, 1, FreshFrom(70));
  }

  // ------------------------------------------------------------ a rebuilt run

  lemma ProcessOne(jobs: map<Id, Job>, outbox: map<Id, Entry>, parent: Id)
    ensures ProcessPartition(Tables(jobs, outbox, OneRun(parent, Processing, [false])), 3, 0)
         == Tables(jobs, outbox, OneRun(parent, Processing, [true]))
  {
    assert [false][0 := true] == [true];
  }

  /** All partitions are done, and the finalizer is queued. */
  lemma PartitionCompleted() returns (s: System)
    ensures At(s, Tables(map[1 := Parent(Running), 4 := Worker(1, P0, Succeeded)],
                         map[4 := Entry(1, P0, true), 68 := Entry(1, FINAL, false)], OneRun(1, Processing, [true])), 69)
  {
    hide At;
    s := OneDispatched();
    var outbox := map[4 := Entry(1, P0, true)];
    var queued := Tables(map[1 := Parent(Running), 4 := Worker(1, P0, Queued)], outbox, OneRun(1, Processing, [false]));
    var running := Tables(map[1 := Parent(Running), 4 := Worker(1, P0, Running)], outbox, OneRun(1, Processing, [false]));
    s := Life(s, queued, 68, 4, Running);
    assert SetStatus(queued, 4, Running) == running;
    s := ProcessNow(s, running, 68, 4);
    var processed := Tables(map[1 := Parent(Running), 4 := Worker(1, P0, Running)], outbox, OneRun(1, Processing, [true]));
    ProcessOne(running.jobs, outbox, 1);
    s := CompleteNow(s, processed, 68, 4);
    assert !KeyTaken(outbox, FinalizerKey(3));
    assert CompletePartition(processed, 4, 68) ==
           Tables(map[1 := Parent(Running), 4 := Worker(1, P0, Succeeded)],
                  map[4 := Entry(1, P0, true), 68 := Entry(1, FINAL, false)], OneRun(1, Processing, [true]));
  }

  lemma FinalizerFailed() returns (s: System)
    ensures At(s, Tables(map[1 := Parent(Running), 4 := Worker(1, P0, Succeeded), 68 := Worker(1, FINAL, Failed)],
                         map[4 := Entry(1, P0, true), 68 := Entry(1, FINAL, true)], OneRun(1, Processing, [true])), 69)
  {
    hide At;
    s := PartitionCompleted();
    var run := OneRun(1, Processing, [true]);
    var db := Tables(map[1 := Parent(Running), 4 := Worker(1, P0, Succeeded)],
                     map[4 := Entry(1, P0, true), 68 := Entry(1, FINAL, false)], run);
    s := DispatchNow(s, db, 69, 68);
    var outbox := map[4 := Entry(1, P0, true), 68 := Entry(1, FINAL, true)];
    var queued := Tables(map[1 := Parent(Running), 4 := Worker(1, P0, Succeeded), 68 := Worker(1, FINAL, Queued)], outbox, run);
    assert DispatchTx(db, 68, 1, FINAL) == queued;
    s := Life(s, queued, 69, 68, Running);
    var running := Tables(map[1 := Parent(Running), 4 := Worker(1, P0, Succeeded), 68 := Worker(1, FINAL, Running)], outbox, run);
    assert SetStatus(queued, 68, Running) == running;
    s := Life(s, running, 69, 68, Failed);
    assert SetStatus(running, 68, Failed) ==
           Tables(map[1 := Parent(Running), 4 := Worker(1, P0, Succeeded), 68 := Worker(1, FINAL, Failed)], outbox, run);
  }

  /** The jobs of the first refresh after its finalizer has failed. */
  function FailedJobs(): map<Id, Job> {
    map[1 := Parent(Failed), 4 := Worker(1, P0, Succeeded), 68 := Worker(1, FINAL, Failed)]
  }

  function FailedTables(jobs: map<Id, Job>): Db {
    Tables(jobs, map[4 := Entry(1, P0, true), 68 := Entry(1, FINAL, true)], OneRun(1, RunFailed, [true]))
  }

  lemma FirstFailed() returns (s: System)
    ensures At(s, FailedTables(FailedJobs()), 69)
  {
    hide At;
    s := FinalizerFailed();
    var outbox := map[4 := Entry(1, P0, true), 68 := Entry(1, FINAL, true)];
    var db := Tables(map[1 := Parent(Running), 4 := Worker(1, P0, Succeeded), 68 := Worker(1, FINAL, Failed)], outbox,
                     OneRun(1, Processing, [true]));
    FailsFirst(db);
    hide FailParentTx, FailedTables, FailedJobs;
    s := FailNow(s, db, 69, 1, {3});
  }

  lemma FailsFirst(db: Db)
    requires db == Tables(map[1 := Parent(Running), 4 := Worker(1, P0, Succeeded), 68 := Worker(1, FINAL, Failed)],
                          map[4 := Entry(1, P0, true), 68 := Entry(1, FINAL, true)], OneRun(1, Processing, [true]))
    ensures FailParentTx(db, 1, {3}) == FailedTables(FailedJobs())
  {
    var db' := FailParentTx(db, 1, {3});
    assert db'.jobs == FailedJobs();
    assert db'.runs == map[3 := OneRun(1, RunFailed, [true])];
  }

  lemma RefreshFailed() returns (s: System)
    ensures At(s, Tables(FailedJobs()[69 := Parent(Running)],
                         map[4 := Entry(1, P0, true), 68 := Entry(1, FINAL, true)], OneRun(1, RunFailed, [true])), 70)
  {
    hide At;
    s := FirstFailed();
    s := StartRefresh(s, FailedTables(FailedJobs()), 69, 69, SOURCE);
    var started := FailedTables(FailedJobs()[69 := Parent(Queued)]);
    s := Life(s, started, 70, 69, Running);
    assert SetStatus(started, 69, Running) == FailedTables(FailedJobs()[69 := Parent(Running)]);
  }

  /** The finalizer fails, and with it the refresh and its run; a new refresh 69 prepares the same
      snapshot again and rebuilds the run. */
  lemma RunRebuilt() returns (s: System)
    ensures At(s, Tables(FailedJobs()[69 := Parent(Running)],
                         map[4 := Entry(1, P0, true), 68 := Entry(1, FINAL, true), 71 := Entry(69, P0, false)],
                         OneRun(69, Processing, [false])), 135)
  {
    hide At;
    s := RefreshFailed();
    var outbox := map[4 := Entry(1, P0, true), 68 := Entry(1, FINAL, true)];
    var db := Tables(FailedJobs()[69 := Parent(Running)], outbox, OneRun(1, RunFailed, [true]));
    s := Rebuild(s, db, 70, 69);
    assert outbox[71 := Entry(69, P0, false)]
        == map[4 := Entry(1, P0, true), 68 := Entry(1, FINAL, true), 71 := Entry(69, P0, false)];
  }

  /** An operator replays the failed finalizer: it appears although the partition of the rebuilt
      run has not succeeded, and although the run's key is spent. */
  lemma ReplayedFinalizer() returns (s: System, step: Step)
    ensures Reachable(s) && Enabled(s, step) && step.Replay? && KeySpent(s.db, 68, 3)
    ensures var db' := DbAfter(s, step);
            && !IsChild(s.db, 135) && IsChild(db', 135) && db'.jobs[135].work == Finalize(3)
            && 3 in db'.runs && !AllDone(db'.runs[3])
  {
    s := RunRebuilt();
    hide Reachable;
    step := Replay(68, 135);
    assert !s.db.runs[3].done[0];
  }

  /** The tables once the rebuilt run's only partition has completed: the finalizer key is still
      taken by the first refresh, so no finalizer was queued. */
  function StrandedTables(): Db {
    Tables(FailedJobs()[69 := Parent(Running)][71 := Worker(69, P0, Succeeded)],
           map[4 := Entry(1, P0, true), 68 := Entry(1, FINAL, true), 71 := Entry(69, P0, true)], OneRun(69, Processing, [true]))
  }

  lemma RebuiltDispatched() returns (s: System)
    ensures At(s, Tables(FailedJobs()[69 := Parent(Running)][71 := Worker(69, P0, Running)],
                         map[4 := Entry(1, P0, true), 68 := Entry(1, FINAL, true), 71 := Entry(69, P0, true)],
                         OneRun(69, Processing, [false])), 135)
  {
    hide At;
    s := RunRebuilt();
    var jobs := FailedJobs()[69 := Parent(Running)];
    var outbox := map[4 := Entry(1, P0, true), 68 := Entry(1, FINAL, true), 71 := Entry(69, P0, false)];
    var outbox' := map[4 := Entry(1, P0, true), 68 := Entry(1, FINAL, true), 71 := Entry(69, P0, true)];
    var run := OneRun(69, Processing, [false]);
    s := DispatchNow(s, Tables(jobs, outbox, run), 135, 71);
    assert outbox[71 := Entry(69, P0, true)] == outbox';
    var queued := Tables(jobs[71 := Worker(69, P0, Queued)], outbox', run);
    assert DispatchTx(Tables(jobs, outbox, run), 71, 69, P0) == queued;
    s := Life(s, queued, 135, 71, Running);
    assert SetStatus(queued, 71, Running) == Tables(jobs[71 := Worker(69, P0, Running)], outbox', run);
  }

  /** The whole failing run: the finalizer fails, the refresh fails, the same content is prepared
      again, and every partition of the rebuilt run completes.  The second refresh is running, all
      is done, and no finalizer will ever come. */
  lemma StrandedRefresh() returns (s: System)
    ensures At(s, StrandedTables(), 136) && Stranded(s.db, 69, 3)
    ensures s.db.jobs[69].status.Running? && s.db.runs[3].status.Processing? && AllDone(s.db.runs[3])
  {
    s := RebuiltDispatched();
    var jobs := FailedJobs()[69 := Parent(Running)];
    var outbox := map[4 := Entry(1, P0, true), 68 := Entry(1, FINAL, true), 71 := Entry(69, P0, true)];
    var running := Tables(jobs[71 := Worker(69, P0, Running)], outbox, OneRun(69, Processing, [false]));
    s := FinishRebuilt(s, running);
    hide Reachable;
    StrandedTablesAre();
  }

  lemma FinishRebuilt(s: System, running: Db) returns (s': System)
    requires At(s, running, 135)
    requires running == Tables(FailedJobs()[69 := Parent(Running)][71 := Worker(69, P0, Running)],
                               map[4 := Entry(1, P0, true), 68 := Entry(1, FINAL, true), 71 := Entry(69, P0, true)],
                               OneRun(69, Processing, [false]))
    ensures At(s', StrandedTables(), 136)
  {
    hide At;
    s' := ProcessNow(s, running, 135, 71);
    var processed := Tables(running.jobs, running.outbox, OneRun(69, Processing, [true]));
    ProcessOne(running.jobs, running.outbox, 69);
    s' := CompleteNow(s', processed, 135, 71);
    assert Key(running.outbox[68]) == FinalizerKey(3);
    assert CompletePartition(processed, 71, 135) == StrandedTables();
  }

  lemma StrandedTablesAre()
    ensures Stranded(StrandedTables(), 69, 3) && AllDone(StrandedTables().runs[3])
  {
    var outbox := StrandedTables().outbox;
    assert 71 in outbox && Of(outbox[71].parent, outbox[71].intent, 69, 3);
  }

  /** Preparing snapshot 2 again rebuilds run 3, which has ended. */
  lemma Rebuild(s: System, db: Db, next: Id, parent: Id) returns (s': System)
    requires At(s, db, next) && IsRefresh(db, parent) && db.jobs[parent].status.Running? && db.jobs[parent].source == SOURCE
    requires db.snapshots == map[2 := OneSnapshot(Staging)]
    requires exists q: Id, status: RunStatus :: Ended(status) && db.runs == map[3 := OneRun(q, status, [true])]
    requires forall n :: !KeyTaken(db.outbox, PartitionKey(parent, 3, n))
    ensures At(s', db.(outbox := db.outbox[next + 1 := Entry(parent, P0, false)],
                       runs := map[3 := OneRun(parent, Processing, [false])]), next + 65)
  {
    hide Reachable;
    SnapshotUsed(s);
    s' := PrepareNow(s, db, next, parent, 2, 1, Some(3));
    QueueSmall(db.outbox, parent, 3, 1, FreshFrom(next + 1));
    assert seq(1, _ => false) == [false];
  }

  lemma SnapshotUsed(s: System)
    requires Reachable(s)
    ensures s.db.snapshots.Keys <= s.used
  {
    var states, steps :| Execution(states, steps) && states[|steps|] == s;
    InvHolds(states, steps, |steps|);
    hide LogOk, WorkerOk;
  }

  // ------------------------------------------------------- a swallowed insert

  /** Both partition jobs are running. */
  lemma TwoRunning() returns (s: System)
    ensures At(s, Tables(map[1 := Parent(Running), 4 := Worker(1, P0, Running), 5 := Worker(1, P1, Running)],
                         map[4 := Entry(1, P0, true), 5 := Entry(1, P1, true)], OneRun(1, Processing, [false, false])), 68)
  {
    hide At;
    s := TwoDispatched();
    var outbox := map[4 := Entry(1, P0, true), 5 := Entry(1, P1, true)];
    var run := OneRun(1, Processing, [false, false]);
    var db := Tables(map[1 := Parent(Running), 4 := Worker(1, P0, Queued), 5 := Worker(1, P1, Queued)], outbox, run);
    s := Life(s, db, 68, 4, Running);
    var db' := Tables(map[1 := Parent(Running), 4 := Worker(1, P0, Running), 5 := Worker(1, P1, Queued)], outbox, run);
    assert SetStatus(db, 4, Running) == db';
    s := Life(s, db', 68, 5, Running);
    assert SetStatus(db', 5, Running) ==
           Tables(map[1 := Parent(Running), 4 := Worker(1, P0, Running), 5 := Worker(1, P1, Running)], outbox, run);
  }

  lemma TwoDispatched() returns (s: System)
    ensures At(s, Tables(map[1 := Parent(Running), 4 := Worker(1, P0, Queued), 5 := Worker(1, P1, Queued)],
                         map[4 := Entry(1, P0, true), 5 := Entry(1, P1, true)], OneRun(1, Processing, [false, false])), 68)
  {
    hide At;
    s := Prepared(2);
    var run := OneRun(1, Processing, [false, false]);
    var db := Tables(map[1 := Parent(Running)], map[4 := Entry(1, P0, false), 5 := Entry(1, P1, false)], run);
    s := DispatchNow(s, db, 68, 4);
    var db' := Tables(map[1 := Parent(Running), 4 := Worker(1, P0, Queued)],
                      map[4 := Entry(1, P0, true), 5 := Entry(1, P1, false)], run);
    assert DispatchTx(db, 4, 1, P0) == db';
    s := DispatchNow(s, db', 68, 5);
    assert DispatchTx(db', 5, 1, P1) ==
           Tables(map[1 := Parent(Running), 4 := Worker(1, P0, Queued), 5 := Worker(1, P1, Queued)],
                  map[4 := Entry(1, P0, true), 5 := Entry(1, P1, true)], run);
  }

  lemma ProcessTwo(jobs: map<Id, Job>, outbox: map<Id, Entry>)
    ensures ProcessPartition(Tables(jobs, outbox, OneRun(1, Processing, [false, false])), 3, 0)
         == Tables(jobs, outbox, OneRun(1, Processing, [true, false]))
    ensures ProcessPartition(Tables(jobs, outbox, OneRun(1, Processing, [true, false])), 3, 1)
         == Tables(jobs, outbox, OneRun(1, Processing, [true, true]))
  {
    assert [false, false][0 := true] == [true, false] && [true, false][1 := true] == [true, true];
  }

  /** Both partitions are processed, but only job 4 has completed: job 5 stays running. */
  lemma TwoProcessed() returns (s: System)
    ensures At(s, Tables(map[1 := Parent(Running), 4 := Worker(1, P0, Succeeded), 5 := Worker(1, P1, Running)],
                         map[4 := Entry(1, P0, true), 5 := Entry(1, P1, true), 68 := Entry(1, FINAL, false)],
                         OneRun(1, Processing, [true, true])), 69)
  {
    hide At;
    s := TwoRunning();
    var jobs := map[1 := Parent(Running), 4 := Worker(1, P0, Running), 5 := Worker(1, P1, Running)];
    var outbox := map[4 := Entry(1, P0, true), 5 := Entry(1, P1, true)];
    ProcessTwo(jobs, outbox);
    s := ProcessNow(s, Tables(jobs, outbox, OneRun(1, Processing, [false, false])), 68, 4);
    s := ProcessNow(s, Tables(jobs, outbox, OneRun(1, Processing, [true, false])), 68, 5);
    var db := Tables(jobs, outbox, OneRun(1, Processing, [true, true]));
    s := CompleteNow(s, db, 68, 4);
    assert !KeyTaken(outbox, FinalizerKey(3));
    assert CompletePartition(db, 4, 68) ==
           Tables(map[1 := Parent(Running), 4 := Worker(1, P0, Succeeded), 5 := Worker(1, P1, Running)],
                  map[4 := Entry(1, P0, true), 5 := Entry(1, P1, true), 68 := Entry(1, FINAL, false)],
                  OneRun(1, Processing, [true, true]));
  }

  function PublishedOutbox(): map<Id, Entry> {
    map[4 := Entry(1, P0, true), 5 := Entry(1, P1, true), 68 := Entry(1, FINAL, true)]
  }

  /** Run 3 is published and its refresh completed, while job 5 of it is still running. */
  function PublishedJobs(): map<Id, Job> {
    map[1 := Parent(Succeeded), 4 := Worker(1, P0, Succeeded), 5 := Worker(1, P1, Running), 68 := Child(1, FINAL, Running, true)]
  }

  lemma FinalizerRuns() returns (s: System)
    ensures At(s, Tables(map[1 := Parent(Running), 4 := Worker(1, P0, Succeeded), 5 := Worker(1, P1, Running),
                             68 := Worker(1, FINAL, Running)], PublishedOutbox(), OneRun(1, Processing, [true, true])), 69)
  {
    hide At;
    s := TwoProcessed();
    var run := OneRun(1, Processing, [true, true]);
    var jobs := map[1 := Parent(Running), 4 := Worker(1, P0, Succeeded), 5 := Worker(1, P1, Running)];
    var outbox := map[4 := Entry(1, P0, true), 5 := Entry(1, P1, true), 68 := Entry(1, FINAL, false)];
    s := DispatchNow(s, Tables(jobs, outbox, run), 69, 68);
    var queued := Tables(jobs[68 := Worker(1, FINAL, Queued)], PublishedOutbox(), run);
    assert outbox[68 := Entry(1, FINAL, true)] == PublishedOutbox();
    assert DispatchTx(Tables(jobs, outbox, run), 68, 1, FINAL) == queued;
    s := Life(s, queued, 69, 68, Running);
    assert SetStatus(queued, 68, Running) ==
           Tables(map[1 := Parent(Running), 4 := Worker(1, P0, Succeeded), 5 := Worker(1, P1, Running),
                      68 := Worker(1, FINAL, Running)], PublishedOutbox(), run);
  }

  lemma FinishParent(s: System, db: Db, next: Id, id: Id) returns (s': System)
    requires At(s, db, next)
    ensures At(s', CompleteParentTx(db, id), next)
  {
    hide Reachable, CompleteParentTx;
    s' := Move(s, db, next, CompleteParent(id), CompleteParentTx(db, id), next);
  }

  lemma PublishesRun(db: Db, published: Db)
    requires db == Tables(map[1 := Parent(Running), 4 := Worker(1, P0, Succeeded), 5 := Worker(1, P1, Running),
                              68 := Worker(1, FINAL, Running)], PublishedOutbox(), OneRun(1, Processing, [true, true]))
    requires published == Db(map[1 := Refresh(SOURCE, Running, true), 4 := Worker(1, P0, Succeeded), 5 := Worker(1, P1, Running),
                                 68 := Child(1, FINAL, Running, true)],
                             PublishedOutbox(), map[3 := OneRun(1, Published, [true, true])], map[2 := OneSnapshot(Active)], map[])
    ensures RunningChild(db, 68) && db.jobs[68].work.Finalize?
    ensures FinalizeTx(db, 68, false) == published && CompleteParentTx(published, 1) == published.(jobs := PublishedJobs())
  {
    hide PublishedOutbox;
  }

  lemma RunPublished() returns (s: System)
    ensures At(s, Db(PublishedJobs(), PublishedOutbox(), map[3 := OneRun(1, Published, [true, true])],
                     map[2 := OneSnapshot(Active)], map[]), 69)
  {
    hide At, FinalizeTx, CompleteParentTx, PublishedOutbox, PublishedJobs;
    s := FinalizerRuns();
    var jobs := map[1 := Parent(Running), 4 := Worker(1, P0, Succeeded), 5 := Worker(1, P1, Running), 68 := Worker(1, FINAL, Running)];
    var db := Tables(jobs, PublishedOutbox(), OneRun(1, Processing, [true, true]));
    var locked := map[1 := Refresh(SOURCE, Running, true), 4 := Worker(1, P0, Succeeded), 5 := Worker(1, P1, Running),
                      68 := Child(1, FINAL, Running, true)];
    var published := Db(locked, PublishedOutbox(), map[3 := OneRun(1, Published, [true, true])], map[2 := OneSnapshot(Active)], map[]);
    PublishesRun(db, published);
    s := FinalizeNow(s, db, 69, 68);
    s := FinishParent(s, published, 69, 1);
  }

  /** Other content has taken over, snapshot 2 was staged again, and refresh 70 is running. */
  lemma Restaged() returns (s: System)
    ensures At(s, Db(PublishedJobs()[70 := Parent(Running)], PublishedOutbox(), map[3 := OneRun(1, Published, [true, true])],
                     map[2 := OneSnapshot(Staging), 69 := OneSnapshot(Active)], map[]), 71)
  {
    hide At;
    s := RunPublished();
    var runs := map[3 := OneRun(1, Published, [true, true])];
    var db := Db(PublishedJobs(), PublishedOutbox(), runs, map[2 := OneSnapshot(Active)], map[]);
    s := Store(s, db, 69, map[2 := OneSnapshot(Superseded), 69 := OneSnapshot(Active)], {69}, 70);
    var db' := Db(PublishedJobs(), PublishedOutbox(), runs, map[2 := OneSnapshot(Superseded), 69 := OneSnapshot(Active)], map[]);
    s := Store(s, db', 70, map[2 := OneSnapshot(Staging), 69 := OneSnapshot(Active)], {}, 70);
    var staged := Db(PublishedJobs(), PublishedOutbox(), runs, map[2 := OneSnapshot(Staging), 69 := OneSnapshot(Active)], map[]);
    s := StartRefresh(s, staged, 70, 70, SOURCE);
    var started := staged.(jobs := PublishedJobs()[70 := Parent(Queued)]);
    s := Life(s, started, 71, 70, Running);
    assert SetStatus(started, 70, Running).jobs == PublishedJobs()[70 := Parent(Running)];
  }

  function ClashTables(): Db {
    Db(PublishedJobs()[70 := Parent(Running)],
       PublishedOutbox()[72 := Entry(70, P0, false)][73 := Entry(70, P1, false)],
       map[3 := OneRun(70, Processing, [false, false])],
       map[2 := OneSnapshot(Staging), 69 := OneSnapshot(Active)], map[])
  }

  lemma RebuiltTwo() returns (s: System)
    ensures At(s, ClashTables(), 136)
  {
    s := Restaged();
    var db := Db(PublishedJobs()[70 := Parent(Running)], PublishedOutbox(), map[3 := OneRun(1, Published, [true, true])],
                 map[2 := OneSnapshot(Staging), 69 := OneSnapshot(Active)], map[]);
    SnapshotUsed(s);
    RebuildsTwo(db);
    hide Reachable, PrepareTx, PublishedOutbox;
    s := PrepareNow(s, db, 71, 70, 2, 2, Some(3));
  }

  lemma RebuildsTwo(db: Db)
    requires db == Db(PublishedJobs()[70 := Parent(Running)], PublishedOutbox(), map[3 := OneRun(1, Published, [true, true])],
                      map[2 := OneSnapshot(Staging), 69 := OneSnapshot(Active)], map[])
    ensures PrepareInput(db, 2, Some(3), FreshFrom(72))
    ensures PrepareTx(db, 2, 70, 2, Some(3), 71, 0, FreshFrom(72)).db == ClashTables()
  {
    QueueSmall(PublishedOutbox(), 70, 3, 2, FreshFrom(72));
    hide PublishedJobs, KeyTaken, InsertEntry, QueueFrom;
    assert seq(2, _ => false) == [false, false];
  }

  /** The partition job that is still running clashes with the rebuilt run's intent for the same
      partition: a dispatcher is about to dispatch it, the refresh is running, and the insert is
      swallowed.  The entry is then spent and has no job. */
  lemma SwallowedInsert() returns (s: System, item: Item)
    ensures Reachable(s) && Enabled(s, DispatchOne(0)) && s.workers[0].todo[0] == item
    ensures OutboxLoops.Swallowed(s.db, item) && item.intent.Partition? && ParentOpen(s.db, item.parent)
    ensures var db' := DbAfter(s, DispatchOne(0)); item.id in db'.outbox && db'.outbox[item.id].dispatched && item.id !in db'.jobs
  {
    var before := RebuiltTwo();
    var db := ClashTables();
    s := DispatchRead(before, db, 136, 73);
    item := ItemOf(db, 73);
    assert item == Item(73, 70, P1);
    assert 5 in db.jobs && db.jobs[5] == Worker(1, P1, Running);
    hide Reachable;
  }
}
