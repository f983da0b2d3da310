/** The committed life cycle of source snapshots: what each transaction may do to the table,
    and what every sequence of transactions keeps. */
module SnapshotTable {
  type Id = nat

  datatype Owner = ProviderAccount(id: Id) | EpgSource(id: Id)

  datatype Kind = M3u | Xtream | XtreamEpg | Xmltv

  datatype Status = Staging | Active | Superseded | Rejected

  datatype Row = Row(id: Id, body: string)

  datatype Stored = Stored(
    owner: Owner, kind: Kind, checksum: string, status: Status, recordCount: nat, staged: bool,
    streams: seq<Row>, channels: seq<Row>, programmes: seq<Row>)

  type Table = map<Id, Stored>

  predicate ValidOwner(owner: Owner, kind: Kind) {
    match owner
    case ProviderAccount(_) => kind.M3u? || kind.Xtream? || kind.XtreamEpg?
    case EpgSource(_) => kind.Xmltv?
  }

  /** `staged_row_count`: the rows of all three tables. */
  function RowCount(s: Stored): nat {
    |s.streams| + |s.channels| + |s.programmes|
  }

  predicate Complete(s: Stored) {
    RowCount(s) == s.recordCount
  }

  predicate SameSlot(a: Stored, owner: Owner, kind: Kind) {
    a.owner == owner && a.kind == kind
  }

  predicate SameContent(a: Stored, owner: Owner, kind: Kind, checksum: string) {
    SameSlot(a, owner, kind) && a.checksum == checksum
  }

  /** `supersede_current`: every other active snapshot of the owner and kind steps back. */
  function Supersede(t: Table, owner: Owner, kind: Kind, replacement: Id): Table {
    map id | id in t ::
      if SameSlot(t[id], owner, kind) && t[id].status.Active? && id != replacement
      then t[id].(status := Superseded) else t[id]
  }

  function Promote(t: Table, id: Id): Table
    requires id in t
  {
    var t' := Supersede(t, t[id].owner, t[id].kind, id);
    t'[id := t'[id].(status := Active)]
  }

  /** A staged provider snapshot takes over from the live snapshots of both live kinds. */
  function PublishLive(t: Table, id: Id): Table
    requires id in t
  {
    Promote(Supersede(Supersede(t, t[id].owner, M3u, id), t[id].owner, Xtream, id), id)
  }

  /** The committed effect of one transaction of the store, of reconciliation or of cleanup. */
  datatype Effect =
    | Unchanged
    | Inserted(id: Id, row: Stored)        // stage of new content
    | InsertedActive(id: Id, row: Stored)  // activate of new content
    | Restaged(id: Id)                     // stage of superseded content
    | Activated(id: Id)                    // activate_staged
    | Reactivated(id: Id)                  // activate of known content, in whatever status
    | Discarded(id: Id)                    // discard_staged, or cleanup of a row without rows
    | RejectedRun(id: Id)                  // reconciliation finds no supported channel
    | Published(id: Id)                    // reconciliation publishes
    | Overtaken(id: Id)                    // reconciliation finds a newer active snapshot
    | Trimmed(id: Id, row: Stored)         // cleanup removes some rows of a snapshot

  predicate NewRow(t: Table, id: Id, row: Stored) {
    && id !in t && ValidOwner(row.owner, row.kind) && Complete(row)
    && forall k :: k in t ==> !SameContent(t[k], row.owner, row.kind, row.checksum)
  }

  predicate Allowed(t: Table, e: Effect) {
    match e
    case Unchanged => true
    case Inserted(id, row) => NewRow(t, id, row) && row.status.Staging? && row.staged
    case InsertedActive(id, row) => NewRow(t, id, row) && row.status.Staging?
    case Restaged(id) => id in t && t[id].status.Superseded?
    case Activated(id) => id in t && t[id].status.Staging? && t[id].staged && Complete(t[id])
    case Reactivated(id) => id in t
    case Discarded(id) => id in t && !t[id].status.Active?
    case RejectedRun(id) => id in t && t[id].status.Staging?
    case Published(id) =>
      && id in t && t[id].status.Staging? && t[id].staged
      && t[id].owner.ProviderAccount? && (t[id].kind.M3u? || t[id].kind.Xtream?)
      && |t[id].streams| == t[id].recordCount
    case Overtaken(id) =>
      && id in t && t[id].status.Staging? && t[id].staged
      && t[id].owner.ProviderAccount? && (t[id].kind.M3u? || t[id].kind.Xtream?)
      && exists a :: a in t && t[a].status.Active? && SameSlot(t[a], t[id].owner, t[id].kind)
    case Trimmed(id, row) =>
      && id in t && !t[id].status.Active? && RowCount(row) <= RowCount(t[id])
      && row == t[id].(streams := row.streams, channels := row.channels, programmes := row.programmes)
  }

  function Apply(t: Table, e: Effect): Table
    requires Allowed(t, e)
  {
    match e
    case Unchanged => t
    case Inserted(id, row) => t[id := row]
    case InsertedActive(id, row) => Promote(t[id := row], id)
    case Restaged(id) => t[id := t[id].(status := Staging, staged := true)]
    case Activated(id) => Promote(t, id)
    case Reactivated(id) => Promote(t, id)
    case Discarded(id) => t - {id}
    case RejectedRun(id) => t[id := t[id].(status := Rejected)]
    case Published(id) => PublishLive(t, id)
    case Overtaken(id) => t[id := t[id].(status := Superseded)]
    case Trimmed(id, row) => t[id := row]
  }

  // -------------------------------------------------------------- invariant

  ghost predicate UniqueContent(t: Table) {
    forall a, b :: a in t && b in t && SameContent(t[b], t[a].owner, t[a].kind, t[a].checksum) ==> a == b
  }

  ghost predicate OneActive(t: Table) {
    forall a, b :: (a in t && b in t && t[a].status.Active? && t[b].status.Active?
                    && SameSlot(t[b], t[a].owner, t[a].kind)) ==> a == b
  }

  ghost predicate StagedMarked(t: Table) {
    forall a :: a in t && t[a].status.Staging? ==> t[a].staged
  }

  ghost predicate OwnersValid(t: Table) {
    forall a :: a in t ==> ValidOwner(t[a].owner, t[a].kind)
  }

  ghost predicate TableInv(t: Table) {
    UniqueContent(t) && OneActive(t) && StagedMarked(t) && OwnersValid(t)
  }

  ghost predicate HasActive(t: Table, owner: Owner, kind: Kind) {
    exists a :: a in t && t[a].status.Active? && SameSlot(t[a], owner, kind)
  }

  ghost function ActiveIds(t: Table): set<Id> {
    set a | a in t && t[a].status.Active?
  }

  /** Only statuses differ. */
  predicate StatusesOnly(t: Table, t': Table) {
    t'.Keys == t.Keys && forall a :: a in t ==> t'[a] == t[a].(status := t'[a].status)
  }

  lemma StatusesKeep(t: Table, t': Table)
    requires StatusesOnly(t, t') && UniqueContent(t) && OwnersValid(t)
    ensures UniqueContent(t') && OwnersValid(t')
  {
  }

  lemma SupersedeKeeps(t: Table, owner: Owner, kind: Kind, id: Id)
    requires TableInv(t)
    ensures TableInv(Supersede(t, owner, kind, id))
  {
    hide UniqueContent, OwnersValid;
    StatusesKeep(t, Supersede(t, owner, kind, id));
  }

  lemma PromoteKeeps(t: Table, id: Id)
    requires id in t && UniqueContent(t) && OneActive(t) && OwnersValid(t)
    requires forall a :: a in t && a != id && t[a].status.Staging? ==> t[a].staged
    ensures TableInv(Promote(t, id))
  {
    hide UniqueContent, OwnersValid;
    StatusesKeep(t, Promote(t, id));
  }

  /** Every transaction keeps the table invariant. */
  lemma ApplyKeeps(t: Table, e: Effect)
    requires TableInv(t) && Allowed(t, e)
    ensures TableInv(Apply(t, e))
  {
    match e {
      case InsertedActive(id, row) => PromoteKeeps(t[id := row], id);
      case Activated(id) => PromoteKeeps(t, id);
      case Reactivated(id) => PromoteKeeps(t, id);
      case Published(id) =>
        SupersedeKeeps(t, t[id].owner, M3u, id);
        var t1 := Supersede(t, t[id].owner, M3u, id);
        SupersedeKeeps(t1, t[id].owner, Xtream, id);
        PromoteKeeps(Supersede(t1, t[id].owner, Xtream, id), id);
      case _ =>
    }
  }

  // ------------------------------------------------------------------- runs

  /** The tables of a run of transactions from the empty one. */
  ghost predicate History(tables: seq<Table>, effects: seq<Effect>) {
    && |tables| == |effects| + 1 && tables[0] == map[]
    && forall i :: 0 <= i < |effects| ==> Allowed(tables[i], effects[i]) && tables[i + 1] == Apply(tables[i], effects[i])
  }

  /** In every committed state there is at most one snapshot per content and at most one
      active snapshot per owner and kind. */
  lemma {:induction false} HistoryInv(tables: seq<Table>, effects: seq<Effect>, k: nat)
    requires History(tables, effects) && k <= |effects|
    ensures TableInv(tables[k])
  {
    if k > 0 {
      HistoryInv(tables, effects, k - 1);
      ApplyKeeps(tables[k - 1], effects[k - 1]);
    }
  }

  /** What an effect makes of the rows and the header of a snapshot that stays. */
  lemma RowsAfter(t: Table, e: Effect, id: Id)
    requires Allowed(t, e) && id in Apply(t, e)
    ensures var row := Apply(t, e)[id];
            if id !in t then (e.Inserted? || e.InsertedActive?) && e.id == id && Complete(row)
            else if e.Trimmed? && e.id == id then row == e.row && row.recordCount == t[id].recordCount
            else RowCount(row) == RowCount(t[id]) && row.recordCount == t[id].recordCount
  {
  }

  /** Cleanup leaves the snapshot without some of its rows. */
  predicate Cut(e: Effect, id: Id) {
    e.Trimmed? && e.id == id && !Complete(e.row)
  }

  /** A committed snapshot holds exactly the rows of its header unless cleanup cut that very
      snapshot. */
  lemma {:induction false} HistoryComplete(tables: seq<Table>, effects: seq<Effect>, k: nat, id: Id)
    requires History(tables, effects) && k <= |effects| && id in tables[k]
    requires forall i :: 0 <= i < k ==> !Cut(effects[i], id)
    ensures Complete(tables[k][id])
  {
    hide Apply, Allowed;
    if k > 0 {
      RowsAfter(tables[k - 1], effects[k - 1], id);
      if id in tables[k - 1] {
        HistoryComplete(tables, effects, k - 1, id);
      }
    }
  }

  /** So every staging snapshot that was not cut can be activated. */
  lemma StagingIsActivatable(tables: seq<Table>, effects: seq<Effect>, k: nat, id: Id)
    requires History(tables, effects) && k <= |effects|
    requires id in tables[k] && tables[k][id].status.Staging?
    requires forall i :: 0 <= i < k ==> !Cut(effects[i], id)
    ensures Allowed(tables[k], Activated(id))
  {
    HistoryInv(tables, effects, k);
    HistoryComplete(tables, effects, k, id);
  }

  ghost predicate RowsBounded(t: Table) {
    forall a :: a in t ==> RowCount(t[a]) <= t[a].recordCount
  }

  /** Rows are never added after the insertion, so a snapshot that was cut stays incomplete. */
  lemma {:induction false} RowsOnlyShrink(tables: seq<Table>, effects: seq<Effect>, k: nat)
    requires History(tables, effects) && k <= |effects|
    ensures RowsBounded(tables[k])
    ensures k < |effects| ==> forall id :: id in tables[k] && id in tables[k + 1] && !Complete(tables[k][id]) ==>
              !Complete(tables[k + 1][id])
  {
    hide Apply, Allowed;
    if k > 0 {
      RowsOnlyShrink(tables, effects, k - 1);
      BoundedStep(tables[k - 1], effects[k - 1]);
    }
    if k < |effects| {
      forall id | id in tables[k] && id in tables[k + 1] && !Complete(tables[k][id]) ensures !Complete(tables[k + 1][id]) {
        RowsAfter(tables[k], effects[k], id);
        TrimShrinks(tables[k], effects[k]);
      }
    }
  }

  lemma TrimShrinks(t: Table, e: Effect)
    requires Allowed(t, e)
    ensures e.Trimmed? ==> e.id in t && RowCount(e.row) <= RowCount(t[e.id])
  {
  }

  lemma BoundedStep(t: Table, e: Effect)
    requires Allowed(t, e) && RowsBounded(t)
    ensures RowsBounded(Apply(t, e))
  {
    TrimShrinks(t, e);
    hide Apply, Allowed;
    forall id | id in Apply(t, e) ensures RowCount(Apply(t, e)[id]) <= Apply(t, e)[id].recordCount {
      RowsAfter(t, e, id);
    }
  }

  lemma PromoteHas(t: Table, id: Id, owner: Owner, kind: Kind)
    requires id in t && HasActive(t, owner, kind)
    ensures HasActive(Promote(t, id), owner, kind)
  {
    var a :| a in t && t[a].status.Active? && SameSlot(t[a], owner, kind);
    var t' := Promote(t, id);
    assert t'[id].status.Active? && SameSlot(t'[id], t[id].owner, t[id].kind);
    assert a == id || SameSlot(t[id], owner, kind) || t'[a] == t[a];
  }

  lemma InsertHas(t: Table, id: Id, row: Stored, owner: Owner, kind: Kind)
    requires id !in t && HasActive(t, owner, kind)
    ensures HasActive(t[id := row], owner, kind)
  {
    var a :| a in t && t[a].status.Active? && SameSlot(t[a], owner, kind);
    assert t[id := row][a] == t[a];
  }

  lemma StillActive(t: Table, t': Table, owner: Owner, kind: Kind)
    requires HasActive(t, owner, kind)
    requires forall a :: a in t && t[a].status.Active? ==> a in t' && t'[a] == t[a]
    ensures HasActive(t', owner, kind)
  {
    var a :| a in t && t[a].status.Active? && SameSlot(t[a], owner, kind);
    assert t'[a] == t[a];
  }

  lemma OthersStay(t: Table, e: Effect, owner: Owner, kind: Kind)
    requires Allowed(t, e) && HasActive(t, owner, kind) && !e.Published?
    ensures HasActive(Apply(t, e), owner, kind)
  {
    match e {
      case InsertedActive(id, row) =>
        InsertHas(t, id, row, owner, kind);
        PromoteHas(t[id := row], id, owner, kind);
      case Activated(id) => PromoteHas(t, id, owner, kind);
      case Reactivated(id) => PromoteHas(t, id, owner, kind);
      case _ => StillActive(t, Apply(t, e), owner, kind);
    }
  }

  predicate Live(kind: Kind) {
    kind.M3u? || kind.Xtream?
  }

  lemma PublishedRows(t: Table, id: Id, a: Id)
    requires Allowed(t, Published(id)) && a in t
    ensures a in PublishLive(t, id)
    ensures PublishLive(t, id)[a] == t[a].(status := if a == id then Active
                                                     else if t[a].status.Active? && t[a].owner == t[id].owner && Live(t[a].kind)
                                                     then Superseded else t[a].status)
  {
  }

  /** Publication takes the active snapshot from an owner and kind exactly when it publishes
      the other live kind of the same account. */
  lemma PublishTakesOtherKind(t: Table, id: Id, owner: Owner, kind: Kind)
    requires Allowed(t, Published(id)) && HasActive(t, owner, kind)
    ensures HasActive(Apply(t, Published(id)), owner, kind) <==>
              !(owner == t[id].owner && Live(kind) && kind != t[id].kind)
  {
    var t' := PublishLive(t, id);
    forall a | a in t ensures a in t' && SameSlot(t'[a], t[a].owner, t[a].kind)
      && (t'[a].status.Active? <==> a == id || (t[a].status.Active? && !(t[a].owner == t[id].owner && Live(t[a].kind))))
    {
      PublishedRows(t, id, a);
    }
    var b :| b in t && t[b].status.Active? && SameSlot(t[b], owner, kind);
    assert t'[b].status.Active? || owner == t[id].owner;
    assert t'[id].status.Active? && SameSlot(t'[id], t[id].owner, t[id].kind);
  }

  /** A publication of the other live kind of the same account. */
  predicate Takes(t: Table, e: Effect, owner: Owner, kind: Kind) {
    e.Published? && e.id in t && owner == t[e.id].owner && Live(kind) && kind != t[e.id].kind
  }

  /** An owner and kind that has an active snapshot keeps one through exactly the effects that
      are no publication of the account's other live kind. */
  lemma ActiveStays(t: Table, e: Effect, owner: Owner, kind: Kind)
    requires Allowed(t, e) && HasActive(t, owner, kind)
    ensures HasActive(Apply(t, e), owner, kind) <==> !Takes(t, e, owner, kind)
  {
    if e.Published? {
      PublishTakesOtherKind(t, e.id, owner, kind);
    } else {
      OthersStay(t, e, owner, kind);
    }
  }

  /** Once a slot has an active snapshot it has exactly one in every later committed state, for
      as long as the account's other live kind is not published. */
  lemma {:induction false} ExactlyOneActive(tables: seq<Table>, effects: seq<Effect>, i: nat, k: nat, owner: Owner, kind: Kind)
    requires History(tables, effects) && i <= k <= |effects| && HasActive(tables[i], owner, kind)
    requires forall n :: i <= n < k ==> !Takes(tables[n], effects[n], owner, kind)
    ensures HasActive(tables[k], owner, kind) && OneActive(tables[k])
    decreases k - i
  {
    HistoryInv(tables, effects, k);
    if i < k {
      ExactlyOneActive(tables, effects, i, k - 1, owner, kind);
      ActiveStays(tables[k - 1], effects[k - 1], owner, kind);
    }
  }

  // ------------------------------------------------- rows of active snapshots

  ghost predicate ActiveComplete(t: Table) {
    forall a :: a in t && t[a].status.Active? ==> Complete(t[a])
  }

  lemma PromoteComplete(t: Table, id: Id)
    requires id in t && ActiveComplete(t)
    ensures ActiveComplete(Promote(t, id)) <==> Complete(t[id])
  {
    var t' := Promote(t, id);
    assert t'[id].status.Active? && (Complete(t'[id]) <==> Complete(t[id]));
    assert forall a :: a in t && a != id && t'[a].status.Active? ==> t'[a] == t[a];
  }

  /** Every effect but the reactivation of an incomplete snapshot leaves the active ones complete. */
  lemma ActiveCompleteStep(t: Table, e: Effect)
    requires Allowed(t, e) && ActiveComplete(t) && RowsBounded(t)
    ensures ActiveComplete(Apply(t, e)) <==> (e.Reactivated? ==> Complete(t[e.id]))
  {
    match e {
      case InsertedActive(id, row) => PromoteComplete(t[id := row], id);
      case Activated(id) => PromoteComplete(t, id);
      case Reactivated(id) => PromoteComplete(t, id);
      case Published(id) => PublishComplete(t, id);
      case _ =>
    }
  }

  lemma PublishComplete(t: Table, id: Id)
    requires Allowed(t, Published(id)) && ActiveComplete(t) && RowsBounded(t)
    ensures ActiveComplete(PublishLive(t, id))
  {
    var t1 := Supersede(Supersede(t, t[id].owner, M3u, id), t[id].owner, Xtream, id);
    assert t1[id] == t[id] && Complete(t[id]);
    PromoteComplete(t1, id);
  }

  /** Over every run the active snapshots are complete in all states exactly if every `activate`
      of known content found its rows complete: it looks at neither status nor rows. */
  lemma {:induction false} ActiveCompleteExactly(tables: seq<Table>, effects: seq<Effect>, k: nat)
    requires History(tables, effects) && k <= |effects|
    ensures (forall i :: 0 <= i <= k ==> ActiveComplete(tables[i])) <==>
            (forall i :: 0 <= i < k && effects[i].Reactivated? ==> effects[i].id in tables[i] && Complete(tables[i][effects[i].id]))
  {
    hide Apply, ActiveComplete, Complete;
    if k == 0 {
      assert ActiveComplete(tables[0]) by { EmptyComplete(); }
    } else {
      ActiveCompleteExactly(tables, effects, k - 1);
      if ActiveComplete(tables[k - 1]) {
        RowsOnlyShrink(tables, effects, k - 1);
        ActiveCompleteStep(tables[k - 1], effects[k - 1]);
      }
    }
  }

  lemma EmptyComplete()
    ensures ActiveComplete(map[])
  {
  }

  function Sample(checksum: string, status: Status, rows: seq<Row>): Stored {
    Stored(ProviderAccount(0), M3u, checksum, status, 1, true, rows, [], [])
  }

  lemma SampleActivations(row: Row)
    ensures var a := Sample("a", Staging, [row]); var b := Sample("b", Staging, [row]);
            var t1: Table := map[1 := Sample("a", Active, [row])];
            && Allowed(map[], InsertedActive(1, a)) && Apply(map[], InsertedActive(1, a)) == t1
            && Allowed(t1, InsertedActive(2, b))
            && Apply(t1, InsertedActive(2, b)) == map[1 := Sample("a", Superseded, [row]), 2 := Sample("b", Active, [row])]
  {
  }

  lemma SampleReuse(row: Row)
    ensures var t2: Table := map[1 := Sample("a", Superseded, [row]), 2 := Sample("b", Active, [row])];
            var t3: Table := map[1 := Sample("a", Superseded, []), 2 := Sample("b", Active, [row])];
            && Allowed(t2, Trimmed(1, Sample("a", Superseded, []))) && Apply(t2, Trimmed(1, Sample("a", Superseded, []))) == t3
            && Allowed(t3, Reactivated(1))
            && Apply(t3, Reactivated(1)) == map[1 := Sample("a", Active, []), 2 := Sample("b", Superseded, [row])]
  {
  }

  lemma FourSteps(tables: seq<Table>, effects: seq<Effect>)
    requires |tables| == 5 && |effects| == 4 && tables[0] == map[]
    requires Allowed(tables[0], effects[0]) && tables[1] == Apply(tables[0], effects[0])
    requires Allowed(tables[1], effects[1]) && tables[2] == Apply(tables[1], effects[1])
    requires Allowed(tables[2], effects[2]) && tables[3] == Apply(tables[2], effects[2])
    requires Allowed(tables[3], effects[3]) && tables[4] == Apply(tables[3], effects[3])
    ensures History(tables, effects)
  {
    hide Allowed, Apply;
  }

  /** A run that ends with an active snapshot whose rows are gone. */
  lemma IncompleteActiveSnapshot(row: Row)
    ensures var effects := [InsertedActive(1, Sample("a", Staging, [row])), InsertedActive(2, Sample("b", Staging, [row])),
                            Trimmed(1, Sample("a", Superseded, [])), Reactivated(1)];
            exists tables: seq<Table> ::
              History(tables, effects) && 1 in tables[4] && tables[4][1].status.Active? && !Complete(tables[4][1])
  {
    var effects := [InsertedActive(1, Sample("a", Staging, [row])), InsertedActive(2, Sample("b", Staging, [row])),
                    Trimmed(1, Sample("a", Superseded, [])), Reactivated(1)];
    var t1: Table := map[1 := Sample("a", Active, [row])];
    var t2: Table := map[1 := Sample("a", Superseded, [row]), 2 := Sample("b", Active, [row])];
    var t3: Table := map[1 := Sample("a", Superseded, []), 2 := Sample("b", Active, [row])];
    var t4: Table := map[1 := Sample("a", Active, []), 2 := Sample("b", Superseded, [row])];
    SampleActivations(row);
    SampleReuse(row);
    hide Allowed, Apply;
    var tables := [map[], t1, t2, t3, t4];
    FourSteps(tables, effects);
    assert 1 in tables[4] && tables[4][1].status.Active? && !Complete(tables[4][1]);
  }
}
