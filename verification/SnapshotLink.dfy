/** The snapshots of the refresh protocol are the provider rows of the snapshot table: what a
    protocol step does to them is an effect the table allows. */
module SnapshotLink {
  import opened Common
  import D = RefreshDb
  import T = SnapshotTable
  import opened RefreshSystem
  import I = RefreshInvariant
  import RefreshSafety

  type Id = nat

  function StatusOf(status: T.Status): D.SnapshotStatus {
    match status
    case Staging => D.SnapshotStatus.Staging
    case Active => D.SnapshotStatus.Active
    case Superseded => D.SnapshotStatus.Superseded
    case Rejected => D.SnapshotStatus.Rejected
  }

  /** A protocol snapshot shows the owner, the status, the mark and the kind of its row. */
  predicate Shows(snap: D.Snapshot, row: T.Stored) {
    && row.owner.ProviderAccount? && snap.account == row.owner.id && snap.status == StatusOf(row.status)
    && snap.staged == row.staged && snap.parallel == T.Live(row.kind)
  }

  ghost predicate Linked(snapshots: map<Id, D.Snapshot>, t: T.Table) {
    && (forall id :: id in snapshots <==> id in t && t[id].owner.ProviderAccount?)
    && (forall id :: id in snapshots ==> Shows(snapshots[id], t[id]))
  }

  // ---------------------------------------------------------------- effects

  /** Whether preparing the snapshot rejects it. */
  predicate Rejects(db: D.Db, snapshot: Id, latest: Option<Id>) {
    && snapshot in db.snapshots && db.snapshots[snapshot].parallel && db.snapshots[snapshot].status.Staging?
    && db.snapshots[snapshot].staged && !D.CanReload(db, latest) && db.snapshots[snapshot].keys == 0
  }

  function PrepareEffect(db: D.Db, snapshot: Id, latest: Option<Id>): T.Effect {
    if Rejects(db, snapshot, latest) then T.RejectedRun(snapshot) else T.Unchanged
  }

  /** Whether a finalizer gets as far as publishing its run. */
  predicate Publishes(db: D.Db, id: Id) {
    && D.RunningChild(db, id) && db.jobs[id].work.Finalize? && db.jobs[id].parent in db.jobs
    && db.jobs[db.jobs[id].parent].Refresh? && db.jobs[db.jobs[id].parent].status.Running?
    && D.Publishable(db, db.jobs[id].work.run)
  }

  function FinalizeEffect(db: D.Db, id: Id, newerActive: bool): T.Effect {
    if !Publishes(db, id) then T.Unchanged
    else if newerActive then T.Overtaken(db.runs[db.jobs[id].work.run].snapshot)
    else T.Published(db.runs[db.jobs[id].work.run].snapshot)
  }

  /** The effect of a protocol step on the snapshot table. */
  ghost function EffectOf(s: System, step: Step): T.Effect
    requires Enabled(s, step)
  {
    match step
    case DiscardSnapshot(id) => T.Discarded(id)
    case PrepareOne(w, latest, _, _, _) => PrepareEffect(s.db, s.workers[w].preps[0].intent.snapshot, latest)
    case PrepareDirect(_, snapshot, _, latest, _, _, _) => PrepareEffect(s.db, snapshot, latest)
    case FinalizeRun(id, newerActive) => FinalizeEffect(s.db, id, newerActive)
    case _ => T.Unchanged
  }

  /** What the finalizer reads in the rows: an active snapshot of the same slot, or streams that
      match the header. */
  ghost predicate RowsRead(s: System, step: Step, t: T.Table) {
    step.FinalizeRun? && Publishes(s.db, step.id) ==>
      var run := s.db.runs[s.db.jobs[step.id].work.run];
      run.snapshot in t ==>
        if step.newerActive then T.HasActive(t, t[run.snapshot].owner, t[run.snapshot].kind)
        else |t[run.snapshot].streams| == t[run.snapshot].recordCount
  }

  lemma PrepareLinked(db: D.Db, t: T.Table, snapshot: Id, parent: Id, requested: int, latest: Option<Id>, run: Id, stamp: nat, ids: seq<Id>)
    requires Linked(db.snapshots, t) && D.PrepareInput(db, snapshot, latest, ids)
    ensures var e := PrepareEffect(db, snapshot, latest);
            T.Allowed(t, e) && Linked(D.PrepareTx(db, snapshot, parent, requested, latest, run, stamp, ids).db.snapshots, T.Apply(t, e))
  {
    hide D.QueueFrom, D.IsLatest;
  }

  lemma OvertakenLinked(snapshots: map<Id, D.Snapshot>, t: T.Table, id: Id)
    requires Linked(snapshots, t) && id in snapshots && snapshots[id].parallel && snapshots[id].status.Staging? && snapshots[id].staged
    requires T.HasActive(t, t[id].owner, t[id].kind)
    ensures T.Allowed(t, T.Overtaken(id))
    ensures Linked(snapshots[id := snapshots[id].(status := D.SnapshotStatus.Superseded)], T.Apply(t, T.Overtaken(id)))
  {
  }

  lemma PublishedLinked(snapshots: map<Id, D.Snapshot>, t: T.Table, id: Id)
    requires Linked(snapshots, t) && id in snapshots && snapshots[id].parallel && snapshots[id].status.Staging? && snapshots[id].staged
    requires |t[id].streams| == t[id].recordCount
    ensures T.Allowed(t, T.Published(id))
    ensures Linked(D.SupersedeLive(snapshots, snapshots[id].account)[id := snapshots[id].(status := D.SnapshotStatus.Active)],
                   T.Apply(t, T.Published(id)))
  {
    assert Shows(snapshots[id], t[id]);
    assert T.Allowed(t, T.Published(id));
    PublishKeys(t, id);
    hide T.PublishLive, T.Allowed, Linked;
    forall a | a in t ensures T.PublishLive(t, id)[a] == t[a].(status := AfterPublish(t, id, a)) {
      T.PublishedRows(t, id, a);
    }
    PublishedShows(snapshots, t, T.PublishLive(t, id), id);
  }

  lemma PublishKeys(t: T.Table, id: Id)
    requires id in t
    ensures T.PublishLive(t, id).Keys == t.Keys
  {
  }

  function AfterPublish(t: T.Table, id: Id, a: Id): T.Status
    requires id in t && a in t
  {
    if a == id then T.Active
    else if t[a].status.Active? && t[a].owner == t[id].owner && T.Live(t[a].kind) then T.Superseded
    else t[a].status
  }

  lemma PublishedShows(snapshots: map<Id, D.Snapshot>, t: T.Table, t': T.Table, id: Id)
    requires Linked(snapshots, t) && id in snapshots && t'.Keys == t.Keys
    requires forall a :: a in t ==> t'[a] == t[a].(status := AfterPublish(t, id, a))
    ensures Linked(D.SupersedeLive(snapshots, snapshots[id].account)[id := snapshots[id].(status := D.SnapshotStatus.Active)], t')
  {
    var after := D.SupersedeLive(snapshots, snapshots[id].account)[id := snapshots[id].(status := D.SnapshotStatus.Active)];
    assert after.Keys == snapshots.Keys;
    forall a | a in after ensures a in t' && Shows(after[a], t'[a]) {
      assert a in snapshots && Shows(snapshots[a], t[a]) && Shows(snapshots[id], t[id]);
    }
  }

  lemma FinalizeLinked(db: D.Db, t: T.Table, id: Id, newerActive: bool)
    requires Linked(db.snapshots, t) && D.RunningChild(db, id) && db.jobs[id].work.Finalize?
    requires Publishes(db, id) ==>
               var run := db.runs[db.jobs[id].work.run];
               && run.snapshot in t && run.account == db.snapshots[run.snapshot].account
               && if newerActive then T.HasActive(t, t[run.snapshot].owner, t[run.snapshot].kind)
                  else |t[run.snapshot].streams| == t[run.snapshot].recordCount
    ensures var e := FinalizeEffect(db, id, newerActive);
            T.Allowed(t, e) && Linked(D.FinalizeTx(db, id, newerActive).snapshots, T.Apply(t, e))
  {
    hide Linked, T.Allowed, T.Apply, T.HasActive, D.SupersedeLive;
    if Publishes(db, id) {
      var snapshot := db.runs[db.jobs[id].work.run].snapshot;
      if newerActive {
        OvertakenLinked(db.snapshots, t, snapshot);
      } else {
        PublishedLinked(db.snapshots, t, snapshot);
      }
    } else {
      UnchangedEffect(t);
    }
  }

  lemma UnchangedEffect(t: T.Table)
    ensures T.Allowed(t, T.Unchanged) && T.Apply(t, T.Unchanged) == t
  {
  }

  lemma DiscardLinked(snapshots: map<Id, D.Snapshot>, t: T.Table, id: Id)
    requires Linked(snapshots, t) && id in snapshots && snapshots[id].status.Staging?
    ensures T.Allowed(t, T.Discarded(id)) && Linked(snapshots - {id}, T.Apply(t, T.Discarded(id)))
  {
  }

  /** The steps that do not touch snapshots. */
  predicate Apart(step: Step) {
    !(step.StoreSnapshots? || step.DiscardSnapshot? || step.PrepareOne? || step.PrepareDirect? || step.FinalizeRun?)
  }

  lemma ApartKeeps(s: System, step: Step)
    requires Enabled(s, step) && Apart(step)
    ensures DbAfter(s, step).snapshots == s.db.snapshots && EffectOf(s, step) == T.Unchanged
  {
    hide D.Clash, D.EndRuns, D.CancelChildren, D.Dispatchable, D.Preparable, D.CleanableEntries, D.CleanableRuns;
    hide D.InsertEntry, FreshIds, D.CleanableEntries;
  }

  lemma OwnRun(s: System, run: Id, t: T.Table)
    requires I.Inv(s) && run in s.db.runs && Linked(s.db.snapshots, t)
    ensures var snapshot := s.db.runs[run].snapshot;
            snapshot in s.db.snapshots && snapshot in t && s.db.snapshots[snapshot].account == s.db.runs[run].account
  {
    hide I.LogOk, I.WorkerOk;
  }

  lemma FinalizeStep(s: System, step: Step, t: T.Table)
    requires I.Inv(s) && Linked(s.db.snapshots, t) && Enabled(s, step) && step.FinalizeRun? && RowsRead(s, step, t)
    ensures T.Allowed(t, EffectOf(s, step)) && Linked(DbAfter(s, step).snapshots, T.Apply(t, EffectOf(s, step)))
  {
    hide I.Inv, Linked, T.Allowed, T.Apply, D.FinalizeTx, T.HasActive;
    if Publishes(s.db, step.id) {
      OwnRun(s, s.db.jobs[step.id].work.run, t);
    }
    hide D.Publishable;
    FinalizeLinked(s.db, t, step.id, step.newerActive);
  }

  /** Every protocol step but the store's own is an allowed effect on the linked table. */
  lemma StepIsEffect(s: System, step: Step, t: T.Table)
    requires I.Inv(s) && Linked(s.db.snapshots, t) && Enabled(s, step) && !step.StoreSnapshots? && RowsRead(s, step, t)
    ensures T.Allowed(t, EffectOf(s, step)) && Linked(DbAfter(s, step).snapshots, T.Apply(t, EffectOf(s, step)))
  {
    hide I.Inv, Linked, T.Allowed, T.Apply, D.PrepareTx, D.FinalizeTx, D.PrepareInput, FreshIds;
    if Apart(step) {
      hide DbAfter, Enabled, EffectOf;
      ApartKeeps(s, step);
      UnchangedEffect(t);
    } else {
      match step {
        case DiscardSnapshot(id) => DiscardLinked(s.db.snapshots, t, id);
        case PrepareOne(w, latest, run, stamp, ids) =>
          var item := s.workers[w].preps[0];
          PrepareLinked(s.db, t, item.intent.snapshot, item.parent, item.intent.partitions, latest, run, stamp, ids);
        case PrepareDirect(parent, snapshot, partitions, latest, run, stamp, ids) =>
          PrepareLinked(s.db, t, snapshot, parent, partitions, latest, run, stamp, ids);
        case FinalizeRun(id, newerActive) => FinalizeStep(s, step, t);
      }
    }
  }

  // ------------------------------------------------------------------- runs

  /** An execution beside a table: store steps bring an allowed effect of their own, every other
      step has the effect of the protocol. */
  ghost predicate Joint(states: seq<System>, steps: seq<Step>, tables: seq<T.Table>, effects: seq<T.Effect>) {
    && Execution(states, steps) && |effects| == |steps| && |tables| == |states| && tables[0] == map[]
    && forall i :: 0 <= i < |steps| ==>
         && (if steps[i].StoreSnapshots?
             then T.Allowed(tables[i], effects[i]) && Linked(states[i + 1].db.snapshots, T.Apply(tables[i], effects[i]))
             else effects[i] == EffectOf(states[i], steps[i]) && RowsRead(states[i], steps[i], tables[i]))
         && (T.Allowed(tables[i], effects[i]) ==> tables[i + 1] == T.Apply(tables[i], effects[i]))
  }

  lemma JointAt(states: seq<System>, steps: seq<Step>, tables: seq<T.Table>, effects: seq<T.Effect>, i: nat)
    requires Joint(states, steps, tables, effects) && i < |steps|
    ensures Enabled(states[i], steps[i]) && states[i + 1] == After(states[i], steps[i])
    ensures steps[i].StoreSnapshots? ==>
              T.Allowed(tables[i], effects[i]) && Linked(states[i + 1].db.snapshots, T.Apply(tables[i], effects[i]))
    ensures !steps[i].StoreSnapshots? ==>
              effects[i] == EffectOf(states[i], steps[i]) && RowsRead(states[i], steps[i], tables[i])
    ensures T.Allowed(tables[i], effects[i]) ==> tables[i + 1] == T.Apply(tables[i], effects[i])
  {
    hide Linked, T.Allowed, T.Apply, EffectOf, RowsRead, Enabled, After;
  }

  /** The table then runs through a history of its own and stays linked to the protocol. */
  lemma {:induction false} JointHistory(states: seq<System>, steps: seq<Step>, tables: seq<T.Table>, effects: seq<T.Effect>, k: nat)
    requires Joint(states, steps, tables, effects) && k <= |steps|
    ensures T.History(tables[..k + 1], effects[..k]) && Linked(states[k].db.snapshots, tables[k])
  {
    hide Linked, T.Allowed, T.Apply, EffectOf, RowsRead, Enabled, DbAfter, UsedAfter, WorkersAfter, LogAfter, I.Inv;
    if k == 0 {
      EmptyLinked(states[0], tables[0]);
    } else {
      var n := k - 1;
      JointHistory(states, steps, tables, effects, n);
      JointAt(states, steps, tables, effects, n);
      RefreshSafety.InvHolds(states, steps, n);
      if !steps[n].StoreSnapshots? {
        StepIsEffect(states[n], steps[n], tables[n]);
      }
      assert tables[..k + 1] == tables[..n + 1] + [tables[k]] && effects[..k] == effects[..n] + [effects[n]];
    }
  }

  lemma EmptyLinked(s: System, t: T.Table)
    requires Init(s) && t == map[]
    ensures Linked(s.db.snapshots, t)
  {
  }

  /** In every state of every joint run an account has at most one active snapshot of a kind. */
  lemma ProtocolOneActive(states: seq<System>, steps: seq<Step>, tables: seq<T.Table>, effects: seq<T.Effect>, k: nat, a: Id, b: Id)
    requires Joint(states, steps, tables, effects) && k <= |steps|
    requires a in states[k].db.snapshots && b in states[k].db.snapshots
    requires states[k].db.snapshots[a].status.Active? && states[k].db.snapshots[b].status.Active?
    requires states[k].db.snapshots[a].account == states[k].db.snapshots[b].account
    ensures a in tables[k] && b in tables[k] && (tables[k][a].kind == tables[k][b].kind ==> a == b)
  {
    JointHistory(states, steps, tables, effects, k);
    T.HistoryInv(tables[..k + 1], effects[..k], k);
    hide Joint, T.History, T.UniqueContent;
    assert Shows(states[k].db.snapshots[a], tables[k][a]) && Shows(states[k].db.snapshots[b], tables[k][b]);
  }
}
