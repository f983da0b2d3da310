/** The tables of the durable refresh protocol and one function per committed
    transaction on them.  A transaction that aborts leaves the tables as they
    were, so only committed effects appear here. */
module RefreshDb {
  import opened Common

  type Id = nat

  datatype JobStatus = Queued | Running | Succeeded | Failed | Cancelled

  predicate Open(status: JobStatus) {
    status.Queued? || status.Running?
  }

  datatype Intent =
    | Prepare(snapshot: Id, partitions: int)
    | Partition(run: Id, number: nat)
    | Finalize(run: Id)

  /** `locked` is the activation lock that keeps publication and cancellation apart. */
  datatype Job =
    | Refresh(source: Id, status: JobStatus, locked: bool)
    | Child(parent: Id, work: Intent, status: JobStatus, locked: bool)

  datatype Entry = Entry(parent: Id, intent: Intent, dispatched: bool)

  /** The value of the `dedup_key` column; each format string is injective in its ids. */
  datatype DedupKey =
    | StageKey(parent: Id, snapshot: Id)
    | PartitionKey(parent: Id, run: Id, number: nat)
    | FinalizerKey(run: Id)

  function KeyOf(parent: Id, intent: Intent): DedupKey {
    match intent
    case Prepare(snapshot, _) => StageKey(parent, snapshot)
    case Partition(run, number) => PartitionKey(parent, run, number)
    case Finalize(run) => FinalizerKey(run)
  }

  function Key(e: Entry): DedupKey {
    KeyOf(e.parent, e.intent)
  }

  datatype RunStatus = Processing | Published | RunFailed | RunCancelled

  /** `done[n]` says whether partition n has succeeded, so `|done|` is the partition count. */
  datatype Run = Run(account: Id, snapshot: Id, parent: Option<Id>, status: RunStatus, created: nat, done: seq<bool>)

  predicate AllDone(run: Run) {
    forall n :: 0 <= n < |run.done| ==> run.done[n]
  }

  datatype SnapshotStatus = Staging | Active | Superseded | Rejected

  /** `parallel` holds for the M3U and Xtream kinds; `keys` counts supported canonical keys. */
  datatype Snapshot = Snapshot(account: Id, status: SnapshotStatus, staged: bool, parallel: bool, keys: nat)

  /** `replays` maps each job that a dead-letter replay added to the failed job it repeats. */
  datatype Db = Db(
    jobs: map<Id, Job>,
    outbox: map<Id, Entry>,
    runs: map<Id, Run>,
    snapshots: map<Id, Snapshot>,
    replays: map<Id, Id>)

  // ---------------------------------------------------------------- outbox

  predicate KeyTaken(outbox: map<Id, Entry>, key: DedupKey) {
    exists id :: id in outbox && Key(outbox[id]) == key
  }

  /** `INSERT ... ON CONFLICT (dedup_key) DO NOTHING`. */
  function InsertEntry(outbox: map<Id, Entry>, id: Id, e: Entry): map<Id, Entry> {
    if KeyTaken(outbox, Key(e)) then outbox else outbox[id := e]
  }

  function QueueFrom(outbox: map<Id, Entry>, parent: Id, run: Id, n: nat, count: nat, ids: seq<Id>): map<Id, Entry>
    requires n <= count <= |ids|
    decreases count - n
  {
    if n == count then outbox
    else
      QueueFrom(InsertEntry(outbox, ids[n], Entry(parent, Partition(run, n), false)), parent, run, n + 1, count, ids)
  }

  /** Queues one intent per partition of a run that has a parent. */
  function QueueRun(outbox: map<Id, Entry>, runId: Id, run: Run, ids: seq<Id>): map<Id, Entry>
    requires |run.done| <= |ids|
  {
    if run.parent.None? then outbox
    else QueueFrom(outbox, run.parent.value, runId, 0, |run.done|, ids)
  }

  function StageIntent(db: Db, parent: Id, snapshot: Id, partitions: int, id: Id): Db {
    db.(outbox := InsertEntry(db.outbox, id, Entry(parent, Prepare(snapshot, Clamp(partitions)), false)))
  }

  // ----------------------------------------------------------- preparation

  /** The newest run of the snapshot, as `ORDER BY created_at DESC, id DESC LIMIT 1` picks it. */
  ghost predicate IsLatest(runs: map<Id, Run>, snapshot: Id, latest: Option<Id>) {
    match latest
    case None => forall r :: r in runs ==> runs[r].snapshot != snapshot
    case Some(r) =>
      && r in runs && runs[r].snapshot == snapshot
      && forall q :: q in runs && runs[q].snapshot == snapshot ==>
           runs[q].created < runs[r].created || (runs[q].created == runs[r].created && q <= r)
  }

  datatype Prepared = Prepared(db: Db, ok: bool)

  predicate CanReload(db: Db, latest: Option<Id>) {
    latest.Some? && latest.value in db.runs && !db.runs[latest.value].status.RunCancelled?
  }

  /** Returns a non-cancelled run to its workers: a processing run as it is, any
      other one rebuilt with all partitions queued again under the new parent. */
  function ReloadRun(db: Db, runId: Id, parent: Id, ids: seq<Id>): Db
    requires runId in db.runs && |db.runs[runId].done| <= |ids|
  {
    var prior := db.runs[runId];
    var run := if prior.status.Processing? then prior
               else prior.(status := Processing, parent := Some(parent), done := seq(|prior.done|, _ => false));
    db.(runs := db.runs[runId := run], outbox := QueueRun(db.outbox, runId, run, ids))
  }

  function CreateRun(db: Db, snapshot: Id, parent: Id, requested: int, runId: Id, stamp: nat, ids: seq<Id>): Db
    requires snapshot in db.snapshots && |ids| >= MAX_PARTITIONS
  {
    var run := Run(db.snapshots[snapshot].account, snapshot, Some(parent), Processing, stamp,
                   seq(Clamp(requested), _ => false));
    db.(runs := db.runs[runId := run], outbox := QueueRun(db.outbox, runId, run, ids))
  }

  ghost predicate PrepareInput(db: Db, snapshot: Id, latest: Option<Id>, ids: seq<Id>) {
    && IsLatest(db.runs, snapshot, latest)
    && |ids| >= MAX_PARTITIONS
    && forall r :: r in db.runs ==> |db.runs[r].done| <= MAX_PARTITIONS
  }

  /** `create_or_load_provider_reconciliation_run`.  `ok` is false where it returns an
      error; rejecting a snapshot without supported keys commits and still errors. */
  ghost function PrepareTx(db: Db, snapshot: Id, parent: Id, requested: int, latest: Option<Id>,
                           newRun: Id, stamp: nat, ids: seq<Id>): Prepared
    requires PrepareInput(db, snapshot, latest, ids)
  {
    if snapshot !in db.snapshots then Prepared(db, false)
    else
      var snap := db.snapshots[snapshot];
      if !snap.parallel then Prepared(db, false)
      else if snap.status.Active? then Prepared(db, true)
      else if !snap.status.Staging? || !snap.staged then Prepared(db, false)
      else if CanReload(db, latest) then Prepared(ReloadRun(db, latest.value, parent, ids), true)
      else if snap.keys == 0 then
        Prepared(db.(snapshots := db.snapshots[snapshot := snap.(status := Rejected)]), false)
      else Prepared(CreateRun(db, snapshot, parent, requested, newRun, stamp, ids), true)
  }

  function MarkDispatched(db: Db, id: Id): Db {
    if id in db.outbox then db.(outbox := db.outbox[id := db.outbox[id].(dispatched := true)]) else db
  }

  // -------------------------------------------------------------- dispatch

  predicate Pending(db: Db, id: Id) {
    id in db.outbox && !db.outbox[id].dispatched
  }

  predicate ParentOpen(db: Db, parent: Id) {
    parent in db.jobs && Open(db.jobs[parent].status)
  }

  /** The partial unique indexes on open partition and finalizer jobs. */
  predicate Clash(jobs: map<Id, Job>, work: Intent) {
    exists k :: k in jobs && jobs[k].Child? && Open(jobs[k].status) && jobs[k].work == work
  }

  /** `INSERT INTO jobs ... ON CONFLICT DO NOTHING`: any unique index can swallow the insert. */
  function InsertJob(jobs: map<Id, Job>, id: Id, parent: Id, work: Intent): map<Id, Job> {
    if id in jobs || Clash(jobs, work) then jobs else jobs[id := Child(parent, work, Queued, false)]
  }

  /** One dispatch transaction for an entry that some worker read earlier. */
  function DispatchTx(db: Db, id: Id, parent: Id, intent: Intent): Db {
    if !Pending(db, id) then db
    else
      var jobs := if ParentOpen(db, parent) then InsertJob(db.jobs, id, parent, intent) else db.jobs;
      MarkDispatched(db.(jobs := jobs), id)
  }

  /** The condition of the second `SELECT` of dispatch_outbox. */
  predicate Dispatchable(db: Db, id: Id) {
    && Pending(db, id)
    && !db.outbox[id].intent.Prepare?
    && (db.outbox[id].intent.Finalize? && db.outbox[id].intent.run in db.runs ==>
          AllDone(db.runs[db.outbox[id].intent.run]))
  }

  predicate Preparable(db: Db, id: Id) {
    Pending(db, id) && db.outbox[id].intent.Prepare? && ParentOpen(db, db.outbox[id].parent)
  }

  // -------------------------------------------------------- job life cycle

  function SetStatus(db: Db, id: Id, status: JobStatus): Db
    requires id in db.jobs
  {
    db.(jobs := db.jobs[id := db.jobs[id].(status := status)])
  }

  function Lock(db: Db, id: Id): Db
    requires id in db.jobs
  {
    db.(jobs := db.jobs[id := db.jobs[id].(locked := true)])
  }

  /** Claim, retry after failure or lease loss, success and failure of one job. */
  predicate LifecycleMove(from: JobStatus, to: JobStatus) {
    || (from.Queued? && to.Running?)
    || (from.Running? && (to.Queued? || to.Succeeded? || to.Failed?))
  }

  predicate RunningChild(db: Db, id: Id) {
    id in db.jobs && db.jobs[id].Child? && db.jobs[id].status.Running?
  }

  function ProcessPartition(db: Db, run: Id, number: nat): Db {
    if run in db.runs && number < |db.runs[run].done| && db.runs[run].status.Processing?
       && db.runs[run].snapshot in db.snapshots
       && db.snapshots[db.runs[run].snapshot].status.Staging? && db.snapshots[db.runs[run].snapshot].staged
    then db.(runs := db.runs[run := db.runs[run].(done := db.runs[run].done[number := true])])
    else db
  }

  /** Completes a partition job and queues the run's finalizer in the same transaction. */
  function CompletePartition(db: Db, id: Id, entry: Id): Db
    requires RunningChild(db, id) && db.jobs[id].work.Partition?
  {
    var job := db.jobs[id];
    if job.parent !in db.jobs || !db.jobs[job.parent].Refresh? then db
    else
      var done := SetStatus(db, id, Succeeded);
      if db.jobs[job.parent].status.Cancelled? then done
      else done.(outbox := InsertEntry(db.outbox, entry, Entry(job.parent, Finalize(job.work.run), false)))
  }

  /** Cancels every open child of the parent that holds no activation lock. */
  function CancelChildren(jobs: map<Id, Job>, parent: Id): map<Id, Job> {
    map id | id in jobs ::
      if jobs[id].Child? && jobs[id].parent == parent && Open(jobs[id].status) && !jobs[id].locked
      then jobs[id].(status := Cancelled) else jobs[id]
  }

  function EndRuns(runs: map<Id, Run>, ending: set<Id>, status: RunStatus): map<Id, Run> {
    map r | r in runs :: if r in ending && runs[r].status.Processing? then runs[r].(status := status) else runs[r]
  }

  function RunsOf(runs: map<Id, Run>, parent: Id): set<Id> {
    set r | r in runs && runs[r].parent == Some(parent)
  }

  /** Cancels the parent, when it is open, with its open children and its processing runs. */
  function CancelFamily(db: Db, parent: Id): Db
    requires parent in db.jobs
  {
    var jobs := if Open(db.jobs[parent].status) then db.jobs[parent := db.jobs[parent].(status := Cancelled)]
                else db.jobs;
    db.(jobs := CancelChildren(jobs, parent), runs := EndRuns(db.runs, RunsOf(db.runs, parent), RunCancelled))
  }

  /** `JobRepository::cancel` for a refresh job or one of its children. */
  function CancelTx(db: Db, id: Id): Db {
    if id !in db.jobs || !Open(db.jobs[id].status) || db.jobs[id].locked then db
    else
      var parent := if db.jobs[id].Refresh? then id else db.jobs[id].parent;
      if parent !in db.jobs || !db.jobs[parent].Refresh? then SetStatus(db, id, Cancelled)
      else if db.jobs[parent].locked then db
      else CancelFamily(db, parent)
  }

  /** Fails a parent whose child exhausted its retries, with the listed runs of that parent. */
  function FailParentTx(db: Db, parent: Id, ending: set<Id>): Db {
    if parent !in db.jobs || !db.jobs[parent].Refresh? || db.jobs[parent].status.Cancelled?
       || db.jobs[parent].status.Succeeded? then db
    else
      var jobs := if Open(db.jobs[parent].status) then db.jobs[parent := Refresh(db.jobs[parent].source, Failed, false)]
                  else db.jobs;
      db.(jobs := CancelChildren(jobs, parent),
          runs := EndRuns(db.runs, ending * RunsOf(db.runs, parent), RunFailed))
  }

  /** Completes a parent after publication; a failed parent may still be completed. */
  function CompleteParentTx(db: Db, parent: Id): Db {
    if parent !in db.jobs || !db.jobs[parent].Refresh? || db.jobs[parent].status.Cancelled?
       || db.jobs[parent].status.Succeeded? then db
    else db.(jobs := db.jobs[parent := Refresh(db.jobs[parent].source, Succeeded, false)])
  }

  // ----------------------------------------------------------- dead letters

  /** A failed child whose dead letter is unresolved and whose work no open job does. */
  predicate Replayable(db: Db, failed: Id) {
    && failed in db.jobs && db.jobs[failed].Child? && db.jobs[failed].status.Failed?
    && failed !in db.replays.Values && !Clash(db.jobs, db.jobs[failed].work)
  }

  /** `replay_dead_letter_job` for a child: a new job with the kind and payload of the failed
      one.  Neither its parent, nor the outbox, nor the partitions are consulted. */
  function ReplayTx(db: Db, failed: Id, id: Id): Db
    requires Replayable(db, failed)
  {
    db.(jobs := db.jobs[id := Child(db.jobs[failed].parent, db.jobs[failed].work, Queued, false)],
        replays := db.replays[id := failed])
  }

  // ----------------------------------------------------------- publication

  function SupersedeLive(snapshots: map<Id, Snapshot>, account: Id): map<Id, Snapshot> {
    map s | s in snapshots ::
      if snapshots[s].account == account && snapshots[s].parallel && snapshots[s].status.Active?
      then snapshots[s].(status := Superseded) else snapshots[s]
  }

  predicate Publishable(db: Db, runId: Id) {
    && runId in db.runs
    && db.runs[runId].status.Processing?
    && AllDone(db.runs[runId])
    && var s := db.runs[runId].snapshot;
       s in db.snapshots && db.snapshots[s].parallel && db.snapshots[s].status.Staging? && db.snapshots[s].staged
  }

  function PublishRun(db: Db, runId: Id, newerActive: bool): Db
    requires Publishable(db, runId)
  {
    var run := db.runs[runId];
    if newerActive then
      db.(runs := db.runs[runId := run.(status := RunCancelled)],
          snapshots := db.snapshots[run.snapshot := db.snapshots[run.snapshot].(status := Superseded)])
    else
      var cleared := SupersedeLive(db.snapshots, run.account);
      db.(runs := db.runs[runId := run.(status := Published)],
          snapshots := cleared[run.snapshot := db.snapshots[run.snapshot].(status := Active)])
  }

  /** `finalize_provider_reconciliation` for a running finalizer job. */
  function FinalizeTx(db: Db, id: Id, newerActive: bool): Db
    requires RunningChild(db, id) && db.jobs[id].work.Finalize?
  {
    var job := db.jobs[id];
    if job.parent !in db.jobs || !db.jobs[job.parent].Refresh? then db
    else if !db.jobs[job.parent].status.Running? then
      SetStatus(db, id, Cancelled).(runs := EndRuns(db.runs, {job.work.run}, RunCancelled))
    else if !Publishable(db, job.work.run) then db
    else PublishRun(Lock(Lock(db, job.parent), id), job.work.run, newerActive)
  }

  // --------------------------------------------------------------- cleanup

  predicate Terminal(db: Db, id: Id) {
    id in db.jobs && !Open(db.jobs[id].status)
  }

  predicate CleanableEntries(db: Db, ids: set<Id>) {
    forall id :: id in ids ==> id in db.outbox && Terminal(db, db.outbox[id].parent)
  }

  predicate Concerns(intent: Intent, run: Id) {
    (intent.Partition? || intent.Finalize?) && intent.run == run
  }

  predicate CleanableRuns(db: Db, ids: set<Id>) {
    && (forall r, j :: r in ids && r in db.runs && j in db.jobs && Open(db.jobs[j].status) ==>
          db.runs[r].parent != Some(j) && !(db.jobs[j].Child? && Concerns(db.jobs[j].work, r)))
    && (forall r, e :: r in ids && e in db.outbox && Concerns(db.outbox[e].intent, r) ==> db.outbox[e].dispatched)
  }

  function DropSnapshot(db: Db, snapshot: Id): Db {
    db.(snapshots := db.snapshots - {snapshot},
        runs := map r | r in db.runs && db.runs[r].snapshot != snapshot :: db.runs[r])
  }
}
