/** What every step of the refresh protocol keeps. */
module RefreshInvariant {
  import opened Common
  import opened RefreshDb
  import opened RefreshSystem

  predicate IsRefresh(db: Db, id: Id) {
    id in db.jobs && db.jobs[id].Refresh?
  }

  predicate IsChild(db: Db, id: Id) {
    id in db.jobs && db.jobs[id].Child?
  }

  /** A child job that a dispatch added, not a replay. */
  predicate IsDispatched(db: Db, id: Id) {
    IsChild(db, id) && id !in db.replays
  }

  function Subject(intent: Intent): Id {
    if intent.Prepare? then intent.snapshot else intent.run
  }

  /** Every identifier in the tables was generated before. */
  ghost predicate Bounded(db: Db, used: set<Id>) {
    && db.jobs.Keys <= used && db.outbox.Keys <= used && db.runs.Keys <= used && db.snapshots.Keys <= used
    && (forall e :: e in db.outbox ==> Subject(db.outbox[e].intent) in used)
    && (forall j :: IsChild(db, j) ==> Subject(db.jobs[j].work) in used)
  }

  /** Intents, children and runs name refresh jobs as parents. */
  ghost predicate Parents(db: Db) {
    && (forall e :: e in db.outbox ==> IsRefresh(db, db.outbox[e].parent))
    && (forall j :: IsChild(db, j) ==> IsRefresh(db, db.jobs[j].parent))
    && (forall r :: r in db.runs && db.runs[r].parent.Some? ==> IsRefresh(db, db.runs[r].parent.value))
  }

  /** The parent of an intent refreshes the source that the intent's snapshot or run belongs to. */
  predicate SameSource(db: Db, parent: Id, intent: Intent) {
    IsRefresh(db, parent) ==>
      && (intent.Prepare? && intent.snapshot in db.snapshots ==>
            db.snapshots[intent.snapshot].account == db.jobs[parent].source)
      && (!intent.Prepare? && intent.run in db.runs ==> db.runs[intent.run].account == db.jobs[parent].source)
  }

  ghost predicate OneOpenRefresh(db: Db) {
    forall i, j ::
      (IsRefresh(db, i) && IsRefresh(db, j) && ParentOpen(db, i) && ParentOpen(db, j)
       && db.jobs[i].source == db.jobs[j].source) ==> i == j
  }

  /** A run belongs to the source of its snapshot and of its parent. */
  ghost predicate RunsOwned(db: Db) {
    forall r :: r in db.runs ==>
      && db.runs[r].snapshot in db.snapshots
      && db.snapshots[db.runs[r].snapshot].account == db.runs[r].account
      && |db.runs[r].done| <= MAX_PARTITIONS
      && (db.runs[r].parent.Some? && IsRefresh(db, db.runs[r].parent.value) ==>
            db.jobs[db.runs[r].parent.value].source == db.runs[r].account)
  }

  ghost predicate EntriesOwned(db: Db) {
    && (forall e :: e in db.outbox ==> SameSource(db, db.outbox[e].parent, db.outbox[e].intent))
    && (forall j :: IsChild(db, j) ==> SameSource(db, db.jobs[j].parent, db.jobs[j].work))
  }

  ghost predicate KeysUnique(outbox: map<Id, Entry>) {
    forall a, b :: a in outbox && b in outbox && Key(outbox[a]) == Key(outbox[b]) ==> a == b
  }

  /** A replayed job repeats the parent and the work of another child. */
  ghost predicate Repeats(db: Db) {
    forall j :: j in db.replays ==>
      && IsChild(db, j) && IsChild(db, db.replays[j])
      && db.jobs[j].parent == db.jobs[db.replays[j]].parent && db.jobs[j].work == db.jobs[db.replays[j]].work
  }

  ghost predicate Spent(outbox: map<Id, Entry>, parent: Id, intent: Intent) {
    exists e :: e in outbox && outbox[e] == Entry(parent, intent, true)
  }

  /** While the parent of a job is open, a dispatched entry of the job's work stays. */
  ghost predicate JobsSpent(db: Db) {
    forall j :: IsChild(db, j) && ParentOpen(db, db.jobs[j].parent) ==> Spent(db.outbox, db.jobs[j].parent, db.jobs[j].work)
  }

  /** A job and the entry of the same identifier agree, and the entry is dispatched; a dispatched
      job's own entry stays for as long as the job's parent is open. */
  ghost predicate JobsMatch(db: Db) {
    && (forall e :: e in db.outbox && e in db.jobs ==>
          && IsDispatched(db, e)
          && db.outbox[e] == Entry(db.jobs[e].parent, db.jobs[e].work, true))
    && (forall j :: IsChild(db, j) ==> !db.jobs[j].work.Prepare?)
    && (forall j :: IsDispatched(db, j) && ParentOpen(db, db.jobs[j].parent) ==> j in db.outbox)
  }

  ghost predicate OneJobPerIntent(db: Db) {
    forall i, j ::
      (IsDispatched(db, i) && IsDispatched(db, j) && db.jobs[i].parent == db.jobs[j].parent
       && db.jobs[i].work == db.jobs[j].work) ==> i == j
  }

  ghost predicate OneOpenJob(db: Db) {
    forall i, j ::
      (IsChild(db, i) && IsChild(db, j) && Open(db.jobs[i].status) && Open(db.jobs[j].status)
       && db.jobs[i].work == db.jobs[j].work) ==> i == j
  }

  /** Each partition of a run with an open parent has an intent. */
  ghost predicate AllQueued(db: Db) {
    forall r, n: nat ::
      (r in db.runs && db.runs[r].parent.Some? && ParentOpen(db, db.runs[r].parent.value)
       && n < |db.runs[r].done|) ==>
      KeyTaken(db.outbox, PartitionKey(db.runs[r].parent.value, r, n))
  }

  /** No intent names a partition that its run does not have. */
  ghost predicate InRange(db: Db) {
    forall e :: e in db.outbox && db.outbox[e].intent.Partition? && db.outbox[e].intent.run in db.runs ==>
      db.outbox[e].intent.number < |db.runs[db.outbox[e].intent.run].done|
  }

  predicate Detached(db: Db, run: Id, parent: Id) {
    run in db.runs
    && (db.runs[run].status.Published? || db.runs[run].status.RunFailed? || db.runs[run].parent != Some(parent))
  }

  ghost predicate Holder(outbox: map<Id, Entry>, run: Id, parent: Id) {
    Spent(outbox, parent, Finalize(run))
  }

  /** An open parent whose run has ended or moved on has already used up its finalizer key. */
  ghost predicate Holders(db: Db) {
    forall e ::
      (e in db.outbox && !db.outbox[e].intent.Prepare? && ParentOpen(db, db.outbox[e].parent)
       && Detached(db, db.outbox[e].intent.run, db.outbox[e].parent)) ==>
      Holder(db.outbox, db.outbox[e].intent.run, db.outbox[e].parent)
  }

  /** Only a locked or ended parent has a locked child, and a cancelled one has no open child
      but a replayed one. */
  ghost predicate Locks(db: Db) {
    forall j :: IsChild(db, j) && IsRefresh(db, db.jobs[j].parent) ==>
      && (db.jobs[j].locked ==> db.jobs[db.jobs[j].parent].locked || Terminal(db, db.jobs[j].parent))
      && (j !in db.replays && db.jobs[db.jobs[j].parent].status.Cancelled? ==> !Open(db.jobs[j].status))
  }

  /** All of the table invariant but the queued partition intents, which a preparation
      establishes one insert at a time. */
  ghost predicate DbCore(db: Db, used: set<Id>) {
    && Bounded(db, used) && Parents(db) && OneOpenRefresh(db) && RunsOwned(db) && EntriesOwned(db)
    && KeysUnique(db.outbox) && JobsMatch(db) && OneJobPerIntent(db) && OneOpenJob(db)
    && InRange(db) && Holders(db) && Locks(db) && Repeats(db) && JobsSpent(db)
  }

  ghost predicate DbInv(db: Db, used: set<Id>) {
    DbCore(db, used) && AllQueued(db)
  }

  /** What stays true of a row after a dispatcher read it. */
  ghost predicate ItemOk(db: Db, used: set<Id>, item: Item) {
    && item.id in used && Subject(item.intent) in used
    && IsRefresh(db, item.parent)
    && SameSource(db, item.parent, item.intent)
    && (item.id in db.outbox ==> db.outbox[item.id].parent == item.parent && db.outbox[item.id].intent == item.intent)
    && ((item.intent.Finalize? && Pending(db, item.id) && ParentOpen(db, item.parent)
         && item.intent.run in db.runs) ==> AllDone(db.runs[item.intent.run]))
  }

  ghost predicate MarkOk(db: Db, used: set<Id>, id: Id) {
    id in used && (id in db.outbox ==> db.outbox[id].intent.Prepare?)
  }

  ghost predicate ItemsOk(s: System, items: seq<Item>) {
    forall i :: 0 <= i < |items| ==> ItemOk(s.db, s.used, items[i])
  }

  ghost predicate WorkerOk(s: System, w: Worker) {
    match w
    case Idle => true
    case Preparing(preps) => ItemsOk(s, preps) && forall i :: 0 <= i < |preps| ==> preps[i].intent.Prepare?
    case Marking(id, preps) =>
      MarkOk(s.db, s.used, id) && ItemsOk(s, preps) && forall i :: 0 <= i < |preps| ==> preps[i].intent.Prepare?
    case Dispatching(todo) => ItemsOk(s, todo) && forall i :: 0 <= i < |todo| ==> !todo[i].intent.Prepare?
  }

  /** The dispatch of the entry is on record as having added its job. */
  ghost predicate Recorded(log: seq<Record>, job: Id) {
    exists i :: 0 <= i < |log| && log[i] == Record(job, true)
  }

  /** No entry is dispatched twice, and every dispatched job has its record. */
  ghost predicate LogOk(s: System) {
    && (forall i, k :: 0 <= i < k < |s.log| ==> s.log[i].entry != s.log[k].entry)
    && (forall i :: 0 <= i < |s.log| ==> s.log[i].entry in s.used && !Pending(s.db, s.log[i].entry))
    && (forall j :: IsDispatched(s.db, j) ==> Recorded(s.log, j))
    && (forall i :: 0 <= i < |s.log| && s.log[i].inserted ==> IsDispatched(s.db, s.log[i].entry))
  }

  ghost predicate Inv(s: System) {
    DbInv(s.db, s.used) && LogOk(s) && forall w :: w in s.workers ==> WorkerOk(s, s.workers[w])
  }

  /** The part of a step's effect that dispatchers and the dispatch log depend on. */
  ghost predicate Kept(db: Db, used: set<Id>, db': Db, used': set<Id>) {
    && used <= used'
    && (forall item :: ItemOk(db, used, item) ==> ItemOk(db', used', item))
    && (forall id :: MarkOk(db, used, id) ==> MarkOk(db', used', id))
    && (forall id :: id in used && Pending(db', id) ==> Pending(db, id))
    && (forall j :: IsChild(db, j) ==> IsChild(db', j) && (j in db'.replays <==> j in db.replays))
  }
}
