/** Any number of dispatchers, workers, cancellations and cleanups interleaved over the
    refresh tables, one committed transaction per step. */
module RefreshSystem {
  import opened Common
  import opened RefreshDb

  /** An outbox row as a dispatcher read it; it may be stale when it is used. */
  datatype Item = Item(id: Id, parent: Id, intent: Intent)

  /** Where one call of dispatch_outbox stands. */
  datatype Worker =
    | Idle
    | Preparing(preps: seq<Item>)
    | Marking(id: Id, preps: seq<Item>)
    | Dispatching(todo: seq<Item>)

  /** One committed dispatch of a pending entry, and whether it added a job. */
  datatype Record = Record(entry: Id, inserted: bool)

  /** `used` holds every identifier ever generated; identifiers are never generated twice. */
  datatype System = System(db: Db, used: set<Id>, workers: map<Id, Worker>, log: seq<Record>)

  /** `Stop` is both a return from dispatch_outbox and a crash at any point of it;
      `SkipLocked` is an entry row that another transaction holds locked; `StoreSnapshots` is
      whatever the snapshot store or the cleanup of snapshots commits. */
  datatype Step =
    | NewRefresh(id: Id, source: Id)
    | StoreSnapshots(snapshots: map<Id, Snapshot>, added: set<Id>)
    | DiscardSnapshot(id: Id)
    | Stage(parent: Id, snapshot: Id, partitions: int, id: Id)
    | ReadPreparations(w: Id, items: seq<Item>)
    | PrepareOne(w: Id, latest: Option<Id>, run: Id, stamp: nat, ids: seq<Id>)
    | PrepareDirect(parent: Id, snapshot: Id, partitions: int, latest: Option<Id>, run: Id, stamp: nat, ids: seq<Id>)
    | MarkPrepared(w: Id)
    | ReadEntries(w: Id, items: seq<Item>)
    | DispatchOne(w: Id)
    | SkipLocked(w: Id)
    | Stop(w: Id)
    | Lifecycle(id: Id, to: JobStatus)
    | BeginActivation(id: Id)
    | Process(id: Id)
    | Complete(id: Id, entry: Id)
    | FinalizeRun(id: Id, newerActive: bool)
    | CompleteParent(id: Id)
    | FailParent(id: Id, ending: set<Id>)
    | Cancel(id: Id)
    | Replay(failed: Id, id: Id)
    | CleanEntries(gone: set<Id>)
    | CleanRuns(gone: set<Id>)

  predicate Distinct(ids: seq<Id>) {
    forall i, j :: 0 <= i < j < |ids| ==> ids[i] != ids[j]
  }

  predicate FreshIds(used: set<Id>, run: Id, ids: seq<Id>) {
    run !in used && run !in ids && Distinct(ids) && forall i :: 0 <= i < |ids| ==> ids[i] !in used
  }

  function Ids(ids: seq<Id>): set<Id> {
    set i | i in ids
  }

  predicate IsWorker(s: System, w: Id) {
    w in s.workers
  }

  function ItemOf(db: Db, id: Id): Item
    requires id in db.outbox
  {
    Item(id, db.outbox[id].parent, db.outbox[id].intent)
  }

  ghost predicate Init(s: System) {
    s.db == Db(map[], map[], map[], map[], map[]) && s.used == {} && s.log == []
    && forall w :: w in s.workers ==> s.workers[w].Idle?
  }

  /** When a step may happen. */
  ghost predicate Enabled(s: System, step: Step) {
    var db := s.db;
    match step
    case NewRefresh(id, source) =>
      // the unique index on open refresh jobs of one source
      id !in s.used && forall j :: j in db.jobs && db.jobs[j].Refresh? && Open(db.jobs[j].status) ==> db.jobs[j].source != source
    case StoreSnapshots(snapshots, added) =>
      && added !! s.used && snapshots.Keys <= db.snapshots.Keys + added
      && (forall id :: id in snapshots && id in db.snapshots ==> snapshots[id].account == db.snapshots[id].account)
      && (forall r :: r in db.runs ==> db.runs[r].snapshot in snapshots)
    case DiscardSnapshot(id) => id in db.snapshots && db.snapshots[id].status.Staging?
    case Stage(parent, snapshot, _, id) =>
      && id !in s.used
      && parent in db.jobs && db.jobs[parent].Refresh?
      && snapshot in db.snapshots && db.snapshots[snapshot].account == db.jobs[parent].source
    case ReadPreparations(w, items) =>
      && IsWorker(s, w) && s.workers[w].Idle?
      && forall i :: 0 <= i < |items| ==> Preparable(db, items[i].id) && items[i] == ItemOf(db, items[i].id)
    case PrepareOne(w, latest, run, _, ids) =>
      && IsWorker(s, w) && s.workers[w].Preparing? && s.workers[w].preps != []
      && s.workers[w].preps[0].intent.Prepare?
      && FreshIds(s.used, run, ids)
      && PrepareInput(db, s.workers[w].preps[0].intent.snapshot, latest, ids)
    case PrepareDirect(parent, snapshot, _, latest, run, _, ids) =>
      && parent in db.jobs && db.jobs[parent].Refresh? && db.jobs[parent].status.Running?
      && (snapshot in db.snapshots ==> db.snapshots[snapshot].account == db.jobs[parent].source)
      && snapshot in s.used
      && FreshIds(s.used, run, ids)
      && PrepareInput(db, snapshot, latest, ids)
    case MarkPrepared(w) => IsWorker(s, w) && s.workers[w].Marking?
    case ReadEntries(w, items) =>
      && IsWorker(s, w)
      && s.workers[w].Preparing? && s.workers[w].preps == []
      && forall i :: 0 <= i < |items| ==> Dispatchable(db, items[i].id) && items[i] == ItemOf(db, items[i].id)
    case DispatchOne(w) => IsWorker(s, w) && s.workers[w].Dispatching? && s.workers[w].todo != []
    case SkipLocked(w) => IsWorker(s, w) && s.workers[w].Dispatching? && s.workers[w].todo != []
    case Stop(w) => IsWorker(s, w)
    case Lifecycle(id, to) => id in db.jobs && LifecycleMove(db.jobs[id].status, to)
    case BeginActivation(id) => id in db.jobs && db.jobs[id].Refresh? && db.jobs[id].status.Running?
    case Process(id) => RunningChild(db, id) && db.jobs[id].work.Partition?
    case Complete(id, entry) => RunningChild(db, id) && db.jobs[id].work.Partition? && entry !in s.used
    case FinalizeRun(id, _) => RunningChild(db, id) && db.jobs[id].work.Finalize?
    case CompleteParent(_) => true
    case FailParent(_, _) => true
    case Cancel(_) => true
    case Replay(failed, id) => Replayable(db, failed) && id !in s.used
    case CleanEntries(ids) => CleanableEntries(db, ids)
    case CleanRuns(ids) => CleanableRuns(db, ids)
  }

  /** The tables after a step. */
  ghost function DbAfter(s: System, step: Step): Db
    requires Enabled(s, step)
  {
    var db := s.db;
    match step
    case NewRefresh(id, source) => db.(jobs := db.jobs[id := Refresh(source, Queued, false)])
    case StoreSnapshots(snapshots, _) => db.(snapshots := snapshots)
    case DiscardSnapshot(id) => DropSnapshot(db, id)
    case Stage(parent, snapshot, partitions, id) => StageIntent(db, parent, snapshot, partitions, id)
    case ReadPreparations(_, _) => db
    case PrepareOne(w, latest, run, stamp, ids) =>
      var item := s.workers[w].preps[0];
      PrepareTx(db, item.intent.snapshot, item.parent, item.intent.partitions, latest, run, stamp, ids).db
    case PrepareDirect(parent, snapshot, partitions, latest, run, stamp, ids) =>
      PrepareTx(db, snapshot, parent, partitions, latest, run, stamp, ids).db
    case MarkPrepared(w) => MarkDispatched(db, s.workers[w].id)
    case ReadEntries(_, _) => db
    case DispatchOne(w) =>
      var item := s.workers[w].todo[0];
      DispatchTx(db, item.id, item.parent, item.intent)
    case SkipLocked(_) => db
    case Stop(_) => db
    case Lifecycle(id, to) => SetStatus(db, id, to)
    case BeginActivation(id) => Lock(db, id)
    case Process(id) => ProcessPartition(db, db.jobs[id].work.run, db.jobs[id].work.number)
    case Complete(id, entry) => CompletePartition(db, id, entry)
    case FinalizeRun(id, newerActive) => FinalizeTx(db, id, newerActive)
    case CompleteParent(id) => CompleteParentTx(db, id)
    case FailParent(id, ending) => FailParentTx(db, id, ending)
    case Cancel(id) => CancelTx(db, id)
    case Replay(failed, id) => ReplayTx(db, failed, id)
    case CleanEntries(ids) => db.(outbox := db.outbox - ids)
    case CleanRuns(ids) => db.(runs := db.runs - ids)
  }

  ghost function UsedAfter(s: System, step: Step): set<Id> {
    match step
    case NewRefresh(id, _) => s.used + {id}
    case StoreSnapshots(_, added) => s.used + added
    case Stage(_, _, _, id) => s.used + {id}
    case PrepareOne(_, _, run, _, ids) => s.used + {run} + Ids(ids)
    case PrepareDirect(_, _, _, _, run, _, ids) => s.used + {run} + Ids(ids)
    case Complete(_, entry) => s.used + {entry}
    case Replay(_, id) => s.used + {id}
    case _ => s.used
  }

  ghost function WorkersAfter(s: System, step: Step): map<Id, Worker>
    requires Enabled(s, step)
  {
    match step
    case ReadPreparations(w, items) => s.workers[w := Preparing(items)]
    case PrepareOne(w, latest, run, stamp, ids) =>
      var item := s.workers[w].preps[0];
      var ok := PrepareTx(s.db, item.intent.snapshot, item.parent, item.intent.partitions, latest, run, stamp, ids).ok;
      s.workers[w := if ok then Marking(item.id, s.workers[w].preps[1..]) else Idle]
    case MarkPrepared(w) => s.workers[w := Preparing(s.workers[w].preps)]
    case ReadEntries(w, items) => s.workers[w := Dispatching(items)]
    case DispatchOne(w) => s.workers[w := Dispatching(s.workers[w].todo[1..])]
    case SkipLocked(w) => s.workers[w := Dispatching(s.workers[w].todo[1..])]
    case Stop(w) => s.workers[w := Idle]
    case _ => s.workers
  }

  ghost function LogAfter(s: System, step: Step): seq<Record>
    requires Enabled(s, step)
  {
    match step
    case DispatchOne(w) =>
      var item := s.workers[w].todo[0];
      if Pending(s.db, item.id)
      then s.log + [Record(item.id, item.id in DbAfter(s, step).jobs && item.id !in s.db.jobs)]
      else s.log
    case _ => s.log
  }

  ghost function After(s: System, step: Step): System
    requires Enabled(s, step)
  {
    System(DbAfter(s, step), UsedAfter(s, step), WorkersAfter(s, step), LogAfter(s, step))
  }

  /** A run: states joined by enabled steps. */
  ghost predicate Execution(states: seq<System>, steps: seq<Step>) {
    && |states| == |steps| + 1
    && Init(states[0])
    && forall i :: 0 <= i < |steps| ==> Enabled(states[i], steps[i]) && states[i + 1] == After(states[i], steps[i])
  }
}
