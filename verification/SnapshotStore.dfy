/** The snapshot store: every operation works on a copy of the table and commits or drops it. */
module SnapshotStore {
  import opened Common
  import opened SnapshotTable
  import S = StagedRows

  type Rows = S.StagedRows<Row>

  datatype Error = EmptySnapshot | InvalidRequest(message: string) | Database | Reporter

  datatype Result<+T> = Ok(value: T) | Err(error: Error)

  datatype XtreamPayload = Auth | LiveCategories | LiveStreams | ShortEpg

  datatype Format = FormatM3u | FormatXmltv | FormatXtream(payload: XtreamPayload)

  function SnapshotKind(f: Format): Kind {
    match f
    case FormatM3u => M3u
    case FormatXmltv => Xmltv
    case FormatXtream(ShortEpg) => XtreamEpg
    case FormatXtream(_) => Xtream
  }

  datatype Prepared = Prepared(
    id: Id, owner: Owner, format: Format, checksum: string, byteCount: nat, recordCount: nat, diagnosticCount: nat,
    streams: Rows, channels: Rows, programmes: Rows)

  const PROVIDER_STREAM_BATCH := 500
  const EPG_CHANNEL_BATCH := 1000
  const PROGRAMME_BATCH := 1000
  const I64_MAX: nat := 0x7FFF_FFFF_FFFF_FFFF

  /** The database calls that may fail, a batch by the records written before it. */
  datatype Statement = Begin | Lookup | CountRows | Update | SupersedeRows | Header | Batch(staged: nat) | Dispatch | Commit

  /** The calls that fail, and the record counts whose progress report is refused. */
  datatype World = World(fails: set<Statement>, refuses: set<nat>)

  predicate Calm(w: World) {
    w.fails == {} && w.refuses == {}
  }

  /** A dispatch intent written with the snapshot; its key is the parent and the snapshot. */
  datatype Intent = Intent(parent: Id, snapshot: Id, partitions: int)

  predicate KeyTaken(outbox: seq<Intent>, parent: Id, snapshot: Id) {
    exists i :: 0 <= i < |outbox| && outbox[i].parent == parent && outbox[i].snapshot == snapshot
  }

  ghost predicate KeysDistinct(outbox: seq<Intent>) {
    forall i, j :: (0 <= i < j < |outbox|) ==> !(outbox[i].parent == outbox[j].parent && outbox[i].snapshot == outbox[j].snapshot)
  }

  function StageDispatch(outbox: seq<Intent>, parent: Option<(Id, int)>, snapshot: Id): seq<Intent> {
    match parent
    case None => outbox
    case Some((job, partitions)) =>
      if KeyTaken(outbox, job, snapshot) then outbox else outbox + [Intent(job, snapshot, partitions)]
  }

  // ---------------------------------------------------------- prepared rows

  /** Two row sets own different files. */
  predicate Apart(a: Rows, b: Rows)
    reads a, b
  {
    a.spool == null || a.spool != b.spool
  }

  /** The three row sets are valid and own different files. */
  ghost predicate Owned(s: Prepared)
    reads s.streams, s.channels, s.programmes, s.streams.spool, s.channels.spool, s.programmes.spool
  {
    && s.streams.Valid() && s.channels.Valid() && s.programmes.Valid()
    && Apart(s.streams, s.channels) && Apart(s.streams, s.programmes) && Apart(s.channels, s.programmes)
  }

  /** The rows of the three sets. */
  datatype Content = Content(streams: seq<Row>, channels: seq<Row>, programmes: seq<Row>)

  ghost function ContentOf(s: Prepared): Content
    reads s.streams, s.channels, s.programmes
  {
    Content(s.streams.rows, s.channels.rows, s.programmes.rows)
  }

  function Size(c: Content): nat {
    |c.streams| + |c.channels| + |c.programmes|
  }

  /** The row holds the prepared snapshot: each kind of rows in its own table, and the header's
      owner, checksum, count and kind. */
  ghost predicate Holds(row: Stored, s: Prepared, c: Content) {
    && row.streams == c.streams && row.channels == c.channels && row.programmes == c.programmes
    && row.owner == s.owner && row.checksum == s.checksum && row.recordCount == s.recordCount
    && OfFormat(row.kind, s.format)
  }

  /** The kind under which a format is stored. */
  ghost predicate OfFormat(kind: Kind, f: Format) {
    && (f == FormatM3u <==> kind == M3u)
    && (f == FormatXmltv <==> kind == Xmltv)
    && (f == FormatXtream(ShortEpg) <==> kind == XtreamEpg)
    && (f == FormatXtream(Auth) || f == FormatXtream(LiveCategories) || f == FormatXtream(LiveStreams) <==> kind == Xtream)
  }

  lemma KindOfFormat(kind: Kind, f: Format)
    ensures OfFormat(kind, f) <==> kind == SnapshotKind(f)
  {
  }

  /** Provider accounts own every format but XMLTV, guide sources only XMLTV; guide channels come
      with XMLTV and short Xtream guides only. */
  lemma OwnersOfFormats(owner: Owner, f: Format)
    ensures ValidOwner(owner, SnapshotKind(f)) <==> (owner.EpgSource? <==> f == FormatXmltv)
    ensures GuideKind(SnapshotKind(f)) <==> f == FormatXmltv || f == FormatXtream(ShortEpg)
  {
  }

  predicate GuideKind(kind: Kind) {
    kind.Xmltv? || kind.XtreamEpg?
  }

  /** Streams need a provider, guide channels a guide format, and the header the right count. */
  predicate Insertable(s: Prepared, c: Content) {
    && (c.streams != [] ==> s.owner.ProviderAccount?)
    && (c.channels != [] ==> GuideKind(SnapshotKind(s.format)))
    && Size(c) == s.recordCount
  }

  /** `validate_snapshot` and the conversions to bigint. */
  predicate Acceptable(s: Prepared, c: Content) {
    && Size(c) > 0 && ValidOwner(s.owner, SnapshotKind(s.format))
    && s.byteCount <= I64_MAX && s.recordCount <= I64_MAX && s.diagnosticCount <= I64_MAX
  }

  method Validate(s: Prepared) returns (e: Option<Error>)
    requires Owned(s)
    ensures e.None? <==> Acceptable(s, ContentOf(s))
    ensures e == Some(EmptySnapshot) <==> Size(ContentOf(s)) == 0
    ensures e.Some? ==> !e.value.Reporter?
  {
    if s.streams.len == 0 && s.channels.len == 0 && s.programmes.len == 0 {
      return Some(EmptySnapshot);
    }
    if !ValidOwner(s.owner, SnapshotKind(s.format)) {
      return Some(InvalidRequest("snapshot owner does not match source format"));
    }
    if s.byteCount > I64_MAX || s.recordCount > I64_MAX || s.diagnosticCount > I64_MAX {
      return Some(InvalidRequest("snapshot count exceeds bigint"));
    }
    return None;
  }

  /** Validation, the start of the transaction and the look-up of stored content. */
  method Preflight(s: Prepared, world: World) returns (e: Option<Error>)
    requires Owned(s)
    ensures e.None? ==> Acceptable(s, ContentOf(s)) && Begin !in world.fails && Lookup !in world.fails
    ensures e.Some? ==> !e.value.Reporter?
    ensures Calm(world) ==> (e.None? <==> Acceptable(s, ContentOf(s)))
  {
    e := Validate(s);
    if e.None? && (Begin in world.fails || Lookup in world.fails) {
      e := Some(Database);
    }
  }

  /** Reports rise strictly from above `low` and never pass `total`. */
  predicate Rising(low: nat, reports: seq<nat>, total: nat) {
    && (forall i :: 0 <= i < |reports| ==> low < reports[i] <= total)
    && (forall i, j :: 0 <= i < j < |reports| ==> reports[i] < reports[j])
  }

  lemma RisingStart(low: nat, total: nat)
    ensures Rising(low, [], total)
  {
  }

  lemma RisingPush(low: nat, reports: seq<nat>, total: nat, next: nat)
    requires Rising(low, reports, total) && low < next <= total
    requires reports != [] ==> reports[|reports| - 1] < next
    ensures Rising(low, reports + [next], total)
  {
  }

  /** What the writes so far have established. */
  ghost predicate Progress(reports: seq<nat>, count: nat, total: nat) {
    && Rising(0, reports, total) && count <= total
    && (if reports == [] then count == 0 else reports[|reports| - 1] == count)
  }

  /** No batch on the way to the reports failed, and none of the reports was refused. */
  ghost predicate Undisturbed(reports: seq<nat>, world: World) {
    forall i :: 0 <= i < |reports| ==> reports[i] !in world.refuses && Batch(Start(reports, i)) !in world.fails
  }

  /** The count before a report. */
  function Start(reports: seq<nat>, i: nat): nat
    requires i <= |reports|
  {
    if i == 0 then 0 else reports[i - 1]
  }

  lemma UndisturbedPush(reports: seq<nat>, world: World, next: nat)
    requires Undisturbed(reports, world) && next !in world.refuses
    requires Batch(Start(reports, |reports|)) !in world.fails
    ensures Undisturbed(reports + [next], world)
  {
    var all := reports + [next];
    assert forall i :: 0 <= i <= |reports| ==> Start(all, i) == Start(reports, i);
  }

  /** Writes the batches of one row set and reports the running count after each. */
  method InsertBatches(batches: seq<seq<Row>>, count: nat, total: nat, world: World, ghost before: seq<nat>)
    returns (r: Result<seq<Row>>, next: nat, ghost reports: seq<nat>)
    requires forall i :: 0 <= i < |batches| ==> batches[i] != []
    requires Progress(before, count, total) && Undisturbed(before, world)
    ensures Rising(0, reports, total) && (r.Ok? ==> Undisturbed(reports, world))
    ensures r.Ok? ==> r.value == Flatten(batches) && next == count + |r.value| && Progress(reports, next, total)
    ensures Calm(world) ==> (r.Ok? <==> count + |Flatten(batches)| <= total)
  {
    hide Rising, Undisturbed;
    var written: seq<Row> := [];
    next := count;
    reports := before;
    for i := 0 to |batches|
      invariant written + Flatten(batches[i..]) == Flatten(batches)
      invariant next == count + |written| && Progress(reports, next, total) && Undisturbed(reports, world)
    {
      var chunk := batches[i];
      assert Flatten(batches[i..]) == chunk + Flatten(batches[i..][1..]) && batches[i..][1..] == batches[i + 1..];
      if Batch(next) in world.fails {
        return Err(Database), next, reports;
      }
      if next + |chunk| > total {
        return Err(InvalidRequest("snapshot staging count exceeds record count")), next, reports;
      }
      written := written + chunk;
      next := next + |chunk|;
      RisingPush(0, reports, total, next);
      ghost var earlier := reports;
      reports := reports + [next];
      if next in world.refuses {
        return Err(Reporter), next, reports;
      }
      UndisturbedPush(earlier, world, next);
    }
    r := Ok(written);
  }

  /** The batches in which the three row sets are written. */
  datatype Batches = Batches(streams: seq<seq<Row>>, channels: seq<seq<Row>>, programmes: seq<seq<Row>>)

  ghost predicate BatchesOf(b: Batches, c: Content) {
    && b.streams == S.Chunks(c.streams, PROVIDER_STREAM_BATCH)
    && b.channels == S.Chunks(c.channels, EPG_CHANNEL_BATCH)
    && b.programmes == S.Chunks(c.programmes, PROGRAMME_BATCH)
  }

  /** All batches but the last have the size, and the last no more. */
  ghost predicate FullBefore(batches: seq<seq<Row>>, size: nat) {
    forall i :: 0 <= i < |batches| ==> |batches[i]| <= size && (i < |batches| - 1 ==> |batches[i]| == size)
  }

  lemma BatchesCut(b: Batches, c: Content)
    requires BatchesOf(b, c)
    ensures Flatten(b.streams) == c.streams && Flatten(b.channels) == c.channels && Flatten(b.programmes) == c.programmes
    ensures forall i :: 0 <= i < |b.streams| ==> b.streams[i] != []
    ensures forall i :: 0 <= i < |b.channels| ==> b.channels[i] != []
    ensures forall i :: 0 <= i < |b.programmes| ==> b.programmes[i] != []
    ensures b.streams == [] <==> c.streams == []
    ensures b.channels == [] <==> c.channels == []
    ensures FullBefore(b.streams, 500) && FullBefore(b.channels, 1000) && FullBefore(b.programmes, 1000)
  {
    S.ChunksCut(c.streams, PROVIDER_STREAM_BATCH);
    S.ChunksCut(c.channels, EPG_CHANNEL_BATCH);
    S.ChunksCut(c.programmes, PROGRAMME_BATCH);
  }

  method ReadBatches(s: Prepared) returns (b: Batches)
    requires Owned(s)
    modifies s.streams.spool, s.channels.spool, s.programmes.spool
    ensures Owned(s) && ContentOf(s) == old(ContentOf(s)) && BatchesOf(b, ContentOf(s))
  {
    hide S.Lines, S.Lawful, S.Chunks, S.StagedRows.Valid;
    var streams := S.CollectBatches(s.streams, PROVIDER_STREAM_BATCH);
    var channels := S.CollectBatches(s.channels, EPG_CHANNEL_BATCH);
    var programmes := S.CollectBatches(s.programmes, PROGRAMME_BATCH);
    b := Batches(streams, channels, programmes);
  }

  /** Writes the header and the rows of new content. */
  method InsertRows(t: Table, s: Prepared, b: Batches, world: World, ghost c: Content)
    returns (r: Result<Stored>, ghost reports: seq<nat>)
    requires BatchesOf(b, c)
    ensures Rising(0, reports, s.recordCount)
    ensures r.Ok? ==> s.id !in t && Insertable(s, c) && Holds(r.value, s, c) && r.value.status.Staging? && !r.value.staged
    ensures r.Ok? ==> Progress(reports, s.recordCount, s.recordCount) && Undisturbed(reports, world) && Header !in world.fails
    ensures Calm(world) ==> (r.Ok? <==> s.id !in t && Insertable(s, c))
  {
    RisingStart(0, s.recordCount);
    BatchesCut(b, c);
    assert Undisturbed([], world);
    assert Progress([], 0, s.recordCount);
    hide Rising, BatchesOf, GuideKind, Flatten, Undisturbed, Progress;
    if Header in world.fails || s.id in t {
      return Err(Database), [];
    }
    if b.streams != [] && !s.owner.ProviderAccount? {
      return Err(InvalidRequest("provider streams require a provider owner")), [];
    }
    var streams, n, report := InsertBatches(b.streams, 0, s.recordCount, world, []);
    if streams.Err? {
      return Err(streams.error), report;
    }
    if b.channels != [] && !GuideKind(SnapshotKind(s.format)) {
      return Err(InvalidRequest("EPG channels are not valid for this snapshot kind")), report;
    }
    var channels, n', report' := InsertBatches(b.channels, n, s.recordCount, world, report);
    if channels.Err? {
      return Err(channels.error), report';
    }
    var programmes, total, all := InsertBatches(b.programmes, n', s.recordCount, world, report');
    reports := all;
    if programmes.Err? {
      return Err(programmes.error), reports;
    }
    if total != s.recordCount {
      return Err(InvalidRequest("snapshot staging count does not match record count")), reports;
    }
    KindOfFormat(SnapshotKind(s.format), s.format);
    r := Ok(Stored(s.owner, SnapshotKind(s.format), s.checksum, Staging, s.recordCount, false,
                   streams.value, channels.value, programmes.value));
  }

  /** The stored snapshot with the content of the prepared one, if there is one. */
  method FindContent(t: Table, s: Prepared) returns (found: Option<Id>)
    ensures found.Some? ==> found.value in t && SameContent(t[found.value], s.owner, SnapshotKind(s.format), s.checksum)
    ensures found.None? ==> forall k :: k in t ==> !SameContent(t[k], s.owner, SnapshotKind(s.format), s.checksum)
  {
    var unseen := t.Keys;
    while unseen != {}
      invariant unseen <= t.Keys
      invariant forall k :: k in t && k !in unseen ==> !SameContent(t[k], s.owner, SnapshotKind(s.format), s.checksum)
      decreases unseen
    {
      var k :| k in unseen;
      if SameContent(t[k], s.owner, SnapshotKind(s.format), s.checksum) {
        return Some(k);
      }
      unseen := unseen - {k};
    }
    return None;
  }

  ghost predicate Known(t: Table, s: Prepared, k: Id) {
    k in t && SameContent(t[k], s.owner, SnapshotKind(s.format), s.checksum)
  }

  /** When staging succeeds if nothing else fails. */
  ghost predicate StageAccepts(t: Table, s: Prepared, c: Content) {
    && Acceptable(s, c)
    && (forall k :: Known(t, s, k) ==>
          t[k].status.Active? || (!t[k].status.Rejected? && RowCount(t[k]) == s.recordCount))
    && ((forall k :: !Known(t, s, k)) ==> s.id !in t && Insertable(s, c))
  }

  lemma AcceptsKnown(t: Table, s: Prepared, c: Content, k: Id)
    requires UniqueContent(t) && Known(t, s, k)
    ensures StageAccepts(t, s, c) <==>
              Acceptable(s, c) && (t[k].status.Active? || (!t[k].status.Rejected? && RowCount(t[k]) == s.recordCount))
    ensures forall j :: Known(t, s, j) ==> j == k
  {
    forall j | Known(t, s, j) ensures j == k {
      assert SameContent(t[j], t[k].owner, t[k].kind, t[k].checksum);
    }
  }

  lemma AcceptsNew(t: Table, s: Prepared, c: Content)
    requires forall k :: k in t ==> !SameContent(t[k], s.owner, SnapshotKind(s.format), s.checksum)
    ensures StageAccepts(t, s, c) <==> Acceptable(s, c) && s.id !in t && Insertable(s, c)
    ensures forall k :: !Known(t, s, k)
  {
  }

  lemma IsKnown(t: Table, s: Prepared, k: Id)
    requires k in t && SameContent(t[k], s.owner, SnapshotKind(s.format), s.checksum)
    ensures Known(t, s, k)
  {
  }

  lemma NothingDone(t: Table, s: Prepared, c: Content)
    ensures StageAccepts(t, s, c) ==> Acceptable(s, c)
  {
  }

  lemma NewRowAllowed(t: Table, s: Prepared, c: Content, row: Stored)
    requires forall k :: k in t ==> !SameContent(t[k], s.owner, SnapshotKind(s.format), s.checksum)
    requires s.id !in t && Insertable(s, c) && Acceptable(s, c) && Holds(row, s, c)
    ensures NewRow(t, s.id, row) && SameContent(row, s.owner, SnapshotKind(s.format), s.checksum)
  {
    KindOfFormat(row.kind, s.format);
    hide OfFormat;
  }

  /** What a stage call did to the table and the outbox, and what it returned.  Which snapshots
      are active never changes.  A call on unknown content stores it whole under the new id with
      its dispatch intent, or changes nothing.  A call on known content adds no rows and returns
      the known id; it commits before it reports, so a refused report leaves what success leaves:
      superseded content staged again and an intent for all but active content.  Any other error
      changes nothing. */
  ghost predicate Staged(t: Table, ob: seq<Intent>, t': Table, ob': seq<Intent>, s: Prepared, c: Content,
                         parent: Option<(Id, int)>, r: Result<Id>, e: Effect)
  {
    && Allowed(t, e) && t' == Apply(t, e) && ActiveIds(t') == ActiveIds(t)
    && (r.Ok? ==> Known(t', s, r.value) && (t'[r.value].status.Active? || t'[r.value].status.Staging?))
    && (r.Err? && (!r.error.Reporter? || forall k :: !Known(t, s, k)) ==> e.Unchanged? && ob' == ob)
    && (r.Ok? && (forall k :: !Known(t, s, k)) ==>
          && r.value == s.id && e.Inserted? && e.id == s.id && Holds(e.row, s, c)
          && ob' == StageDispatch(ob, parent, s.id))
    && (forall k :: Known(t, s, k) && (r.Ok? || r.error.Reporter?) ==>
          && !t[k].status.Rejected? && (r.Ok? ==> r.value == k)
          && e == (if t[k].status.Superseded? then Restaged(k) else Unchanged)
          && ob' == (if t[k].status.Active? then ob else StageDispatch(ob, parent, k)))
  }

  lemma NothingStaged(t: Table, ob: seq<Intent>, s: Prepared, c: Content, parent: Option<(Id, int)>, error: Error)
    requires !error.Reporter? || forall k :: !Known(t, s, k)
    ensures Staged(t, ob, t, ob, s, c, parent, Err(error), Unchanged)
  {
  }

  /** A refused report rolls back exactly if the content is unknown, active, or staging with its
      intent already there: the documentation promises it for all content. */
  lemma RefusedReport(t: Table, ob: seq<Intent>, t': Table, ob': seq<Intent>, s: Prepared, c: Content,
                      parent: Option<(Id, int)>, e: Effect)
    requires Staged(t, ob, t', ob', s, c, parent, Err(Reporter), e)
    ensures t' == t && ob' == ob <==>
              forall k :: Known(t, s, k) ==>
                t[k].status.Active? || (t[k].status.Staging? && (parent.Some? ==> KeyTaken(ob, parent.value.0, k)))
  {
    if k :| Known(t, s, k) {
      assert t[k].status.Superseded? ==> t'[k].status.Staging?;
      if parent.Some? && !KeyTaken(ob, parent.value.0, k) {
        assert |StageDispatch(ob, parent, k)| == |ob| + 1;
      }
    }
  }

  /** The statements that a successful stage call relied on did not fail, and its report on known
      content was accepted. */
  ghost predicate StageRan(t: Table, s: Prepared, world: World, k: Id, e: Effect) {
    && Begin !in world.fails && Lookup !in world.fails && Commit !in world.fails
    && (e.Inserted? ==> Header !in world.fails && Update !in world.fails && Dispatch !in world.fails)
    && (e.Restaged? ==> Update !in world.fails)
    && (Known(t, s, k) ==>
          && s.recordCount !in world.refuses
          && (!t[k].status.Active? ==> CountRows !in world.fails && Dispatch !in world.fails))
  }

  /** Likewise for an activation. */
  ghost predicate ActivateRan(t: Table, s: Prepared, world: World, k: Id) {
    && Begin !in world.fails && Lookup !in world.fails && SupersedeRows !in world.fails && Update !in world.fails
    && Commit !in world.fails && (if Known(t, s, k) then s.recordCount !in world.refuses else Header !in world.fails)
  }

  class SnapshotStore {
    var table: Table
    var outbox: seq<Intent>
    const parent: Option<(Id, int)>

    ghost predicate Valid()
      reads this
    {
      TableInv(table) && KeysDistinct(outbox)
    }

    /** An empty store; a parent job asks for 1 to 64 partitions. */
    constructor (parent: Option<(Id, int)>)
      ensures Valid() && table == map[] && outbox == []
      ensures this.parent.Some? == parent.Some?
      ensures parent.Some? ==> this.parent.value == (parent.value.0, Clamp(parent.value.1))
    {
      table := map[];
      outbox := [];
      this.parent := if parent.Some? then Some((parent.value.0, Clamp(parent.value.1))) else None;
    }

    /** Stores new content as staging, or takes up stored content with the same checksum. */
    method Stage(s: Prepared, world: World) returns (r: Result<Id>, ghost e: Effect, ghost reports: seq<nat>)
      requires Valid() && Owned(s)
      modifies this, s.streams.spool, s.channels.spool, s.programmes.spool
      ensures Valid() && Owned(s) && ContentOf(s) == old(ContentOf(s))
      ensures Staged(old(table), old(outbox), table, outbox, s, ContentOf(s), parent, r, e)
      ensures Rising(0, reports, s.recordCount)
      ensures r.Ok? ==> StageRan(old(table), s, world, r.value, e) && Undisturbed(reports, world)
      ensures Calm(world) ==> (r.Ok? <==> StageAccepts(old(table), s, ContentOf(s)))
    {
      RisingStart(0, s.recordCount);
      NothingDone(table, s, ContentOf(s));
      hide Rising, S.StagedRows.Valid, Acceptable, StageAccepts, TableInv, KeysDistinct, Staged;
      var problem := Preflight(s, world);
      if problem.Some? {
        NothingStaged(table, outbox, s, ContentOf(s), parent, problem.value);
        return Err(problem.value), Unchanged, [];
      }
      r, e, reports := StageContent(s, world);
    }

    /** Staging content that passed validation. */
    method StageContent(s: Prepared, world: World) returns (r: Result<Id>, ghost e: Effect, ghost reports: seq<nat>)
      requires Valid() && Owned(s) && Acceptable(s, ContentOf(s)) && Begin !in world.fails && Lookup !in world.fails
      modifies this, s.streams.spool, s.channels.spool, s.programmes.spool
      ensures Valid() && Owned(s) && ContentOf(s) == old(ContentOf(s))
      ensures Staged(old(table), old(outbox), table, outbox, s, ContentOf(s), parent, r, e)
      ensures Rising(0, reports, s.recordCount)
      ensures r.Ok? ==> StageRan(old(table), s, world, r.value, e) && Undisturbed(reports, world)
      ensures Calm(world) ==> (r.Ok? <==> StageAccepts(old(table), s, ContentOf(s)))
    {
      assert Undisturbed([], world);
      hide Rising, S.StagedRows.Valid, Acceptable, StageAccepts, TableInv, KeysDistinct, Staged, Known;
      var found := FindContent(table, s);
      if found.Some? {
        RisingStart(0, s.recordCount);
        IsKnown(table, s, found.value);
        r, e := Reuse(s, found.value, world, ContentOf(s));
        reports := [];
      } else {
        AcceptsNew(table, s, ContentOf(s));
        r, e, reports := StageNew(s, world);
      }
    }

    /** Staging content that is not stored yet. */
    method StageNew(s: Prepared, world: World) returns (r: Result<Id>, ghost e: Effect, ghost reports: seq<nat>)
      requires Valid() && Owned(s) && Acceptable(s, ContentOf(s)) && Begin !in world.fails && Lookup !in world.fails
      requires forall k :: k in table ==> !SameContent(table[k], s.owner, SnapshotKind(s.format), s.checksum)
      modifies this, s.streams.spool, s.channels.spool, s.programmes.spool
      ensures Valid() && Owned(s) && ContentOf(s) == old(ContentOf(s)) && Rising(0, reports, s.recordCount)
      ensures Staged(old(table), old(outbox), table, outbox, s, ContentOf(s), parent, r, e)
      ensures r.Ok? ==> StageRan(old(table), s, world, r.value, e) && Undisturbed(reports, world)
      ensures Calm(world) ==> (r.Ok? <==> s.id !in old(table) && Insertable(s, ContentOf(s)))
    {
      hide Rising, S.StagedRows.Valid, Insertable, Acceptable, TableInv, KeysDistinct, Staged, OfFormat;
      var batches := ReadBatches(s);
      var row, report := InsertRows(table, s, batches, world, ContentOf(s));
      reports := report;
      if row.Err? {
        NothingStaged(table, outbox, s, ContentOf(s), parent, row.error);
        return Err(row.error), Unchanged, reports;
      }
      if Update in world.fails || Dispatch in world.fails || Commit in world.fails {
        NothingStaged(table, outbox, s, ContentOf(s), parent, Database);
        return Err(Database), Unchanged, reports;
      }
      e := Inserted(s.id, row.value.(staged := true));
      NewStaged(table, outbox, s, ContentOf(s), row.value.(staged := true), parent);
      table := table[s.id := row.value.(staged := true)];
      outbox := StageDispatch(outbox, parent, s.id);
      r := Ok(s.id);
    }

    /** Staging content that is already stored. */
    method Reuse(s: Prepared, k: Id, world: World, ghost c: Content) returns (r: Result<Id>, ghost e: Effect)
      requires Valid() && Known(table, s, k) && Acceptable(s, c) && Begin !in world.fails && Lookup !in world.fails
      modifies this
      ensures Valid() && Staged(old(table), old(outbox), table, outbox, s, c, parent, r, e)
      ensures r.Ok? ==> StageRan(old(table), s, world, r.value, e)
      ensures Calm(world) ==> (r.Ok? <==> StageAccepts(old(table), s, c))
    {
      AcceptsKnown(table, s, c, k);
      hide UniqueContent, OneActive, StagedMarked, OwnersValid, StageAccepts, Acceptable;
      e := Unchanged;
      var row := table[k];
      if row.status.Active? {
        if Commit in world.fails {
          return Err(Database), e;
        }
        if s.recordCount in world.refuses {
          return Err(Reporter), e;
        }
        return Ok(k), e;
      }
      if row.status.Rejected? {
        return Err(InvalidRequest("matching snapshot already exists in a terminal state")), e;
      }
      if CountRows in world.fails {
        return Err(Database), e;
      }
      if RowCount(row) != s.recordCount {
        return Err(InvalidRequest("matching snapshot is incomplete")), e;
      }
      if Dispatch in world.fails || Commit in world.fails || (row.status.Superseded? && Update in world.fails) {
        return Err(Database), e;
      }
      if row.status.Superseded? {
        e := Restaged(k);
        ApplyKeeps(table, e);
        table := table[k := row.(status := Staging, staged := true)];
      }
      DispatchDistinct(outbox, parent, k);
      outbox := StageDispatch(outbox, parent, k);
      if s.recordCount in world.refuses {
        return Err(Reporter), e;
      }
      return Ok(k), e;
    }

    /** Publishes a complete staging snapshot; a snapshot that is active already is left so. */
    method ActivateStaged(id: Id, world: World) returns (r: Result<Id>, ghost e: Effect)
      requires Valid()
      modifies this`table
      ensures Valid() && Allowed(old(table), e) && table == Apply(old(table), e)
      ensures r.Ok? ==> r.value == id && id in table && OnlyActive(table, id)
      ensures e == if r.Ok? && id in old(table) && old(table)[id].status.Staging? then Activated(id) else Unchanged
      ensures r.Ok? ==> Begin !in world.fails && Lookup !in world.fails && Commit !in world.fails
      ensures e.Activated? ==> CountRows !in world.fails && SupersedeRows !in world.fails && Update !in world.fails
      ensures Calm(world) ==> (r.Ok? <==> id in old(table) && (old(table)[id].status.Active? || Allowed(old(table), Activated(id))))
    {
      e := Unchanged;
      if Begin in world.fails || Lookup in world.fails {
        return Err(Database), e;
      }
      if id !in table {
        return Err(InvalidRequest("staged snapshot was not found")), e;
      }
      var row := table[id];
      if row.status.Active? {
        if Commit in world.fails {
          return Err(Database), e;
        }
        return Ok(id), e;
      }
      if !row.status.Staging? || !row.staged {
        return Err(InvalidRequest("snapshot is not ready for activation")), e;
      }
      if CountRows in world.fails {
        return Err(Database), e;
      }
      if RowCount(row) != row.recordCount {
        return Err(InvalidRequest("staged snapshot record count does not match its header")), e;
      }
      if SupersedeRows in world.fails || Update in world.fails || Commit in world.fails {
        return Err(Database), e;
      }
      e := Activated(id);
      PromotesOnly(table, id);
      ApplyKeeps(table, e);
      hide TableInv, OnlyActive;
      var draft := Supersede(table, row.owner, row.kind, id);
      table := draft[id := draft[id].(status := Active)];
      return Ok(id), e;
    }

    /** Removes a staging snapshot, and no other. */
    method DiscardStaged(id: Id, world: World) returns (r: Result<bool>, ghost e: Effect)
      requires Valid()
      modifies this`table
      ensures Valid() && Allowed(old(table), e) && table == Apply(old(table), e) && ActiveIds(table) == ActiveIds(old(table))
      ensures e == if r == Ok(true) then Discarded(id) else Unchanged
      ensures r.Ok? ==> (r.value <==> id in old(table) && old(table)[id].status.Staging?)
      ensures r.Ok? <==> Update !in world.fails
    {
      e := Unchanged;
      if Update in world.fails {
        return Err(Database), e;
      }
      if id !in table || !table[id].status.Staging? {
        return Ok(false), e;
      }
      e := Discarded(id);
      ApplyKeeps(table, e);
      table := table - {id};
      return Ok(true), e;
    }

    /** Stores new content, or takes up stored content in whatever status, as the active snapshot. */
    method Activate(s: Prepared, world: World) returns (r: Result<Id>, ghost e: Effect, ghost reports: seq<nat>)
      requires Valid() && Owned(s)
      modifies this`table, s.streams.spool, s.channels.spool, s.programmes.spool
      ensures Valid() && Owned(s) && ContentOf(s) == old(ContentOf(s)) && Rising(0, reports, s.recordCount)
      ensures BecameActive(old(table), table, s, ContentOf(s), r, e)
      ensures r.Ok? ==> ActivateRan(old(table), s, world, r.value) && Undisturbed(reports, world)
      ensures Calm(world) ==> (r.Ok? <==> ActivateAccepts(old(table), s, ContentOf(s)))
    {
      RisingStart(0, s.recordCount);
      NothingActivated(table, s, ContentOf(s));
      NotAcceptable(table, s, ContentOf(s));
      hide Rising, S.StagedRows.Valid, Acceptable, TableInv, KeysDistinct, Insertable, BecameActive, ActivateAccepts;
      var problem := Preflight(s, world);
      if problem.Some? {
        return Err(problem.value), Unchanged, [];
      }
      r, e, reports := ActivateContent(s, world);
    }

    /** Activating content that passed validation. */
    method ActivateContent(s: Prepared, world: World) returns (r: Result<Id>, ghost e: Effect, ghost reports: seq<nat>)
      requires Valid() && Owned(s) && Acceptable(s, ContentOf(s)) && Begin !in world.fails && Lookup !in world.fails
      modifies this`table, s.streams.spool, s.channels.spool, s.programmes.spool
      ensures Valid() && Owned(s) && ContentOf(s) == old(ContentOf(s)) && Rising(0, reports, s.recordCount)
      ensures BecameActive(old(table), table, s, ContentOf(s), r, e)
      ensures r.Ok? ==> ActivateRan(old(table), s, world, r.value) && Undisturbed(reports, world)
      ensures Calm(world) ==> (r.Ok? <==> ActivateAccepts(old(table), s, ContentOf(s)))
    {
      RisingStart(0, s.recordCount);
      assert Undisturbed([], world);
      hide Undisturbed, ActivateRan;
      hide Rising, S.StagedRows.Valid, Acceptable, TableInv, KeysDistinct, Insertable, BecameActive, Known, ActivateAccepts, SameContent, Owned;
      var found := FindContent(table, s);
      if found.Some? {
        IsKnown(table, s, found.value);
        ActivatesKnown(table, s, ContentOf(s), found.value);
        r, e := Reactivate(s, found.value, world, ContentOf(s));
        reports := [];
      } else {
        ActivatesNew(table, s, ContentOf(s));
        r, e, reports := ActivateNew(s, world);
      }
    }

    /** Activating content that is already stored. */
    method Reactivate(s: Prepared, k: Id, world: World, ghost c: Content) returns (r: Result<Id>, ghost e: Effect)
      requires Valid() && Known(table, s, k) && Begin !in world.fails && Lookup !in world.fails
      modifies this`table
      ensures Valid() && BecameActive(old(table), table, s, c, r, e)
      ensures r.Ok? ==> ActivateRan(old(table), s, world, r.value)
      ensures Calm(world) ==> r.Ok?
    {
      ApplyUnchanged(table);
      if SupersedeRows in world.fails || Update in world.fails {
        return Err(Database), Unchanged;
      }
      var draft := Supersede(table, s.owner, SnapshotKind(s.format), k);
      draft := draft[k := draft[k].(status := Active)];
      if s.recordCount in world.refuses {
        return Err(Reporter), Unchanged;
      }
      if Commit in world.fails {
        return Err(Database), Unchanged;
      }
      e := Reactivated(k);
      PromotesOnly(table, k);
      ApplyKeeps(table, e);
      hide TableInv, OnlyActive;
      table := draft;
      return Ok(k), e;
    }

    /** Activating content that is not stored yet. */
    method ActivateNew(s: Prepared, world: World) returns (r: Result<Id>, ghost e: Effect, ghost reports: seq<nat>)
      requires Valid() && Owned(s) && Acceptable(s, ContentOf(s)) && Begin !in world.fails && Lookup !in world.fails
      requires forall k :: k in table ==> !SameContent(table[k], s.owner, SnapshotKind(s.format), s.checksum)
      modifies this`table, s.streams.spool, s.channels.spool, s.programmes.spool
      ensures Valid() && Owned(s) && ContentOf(s) == old(ContentOf(s)) && Rising(0, reports, s.recordCount)
      ensures BecameActive(old(table), table, s, ContentOf(s), r, e)
      ensures r.Ok? ==> ActivateRan(old(table), s, world, r.value) && Undisturbed(reports, world)
      ensures Calm(world) ==> (r.Ok? <==> s.id !in old(table) && Insertable(s, ContentOf(s)))
    {
      hide Rising, S.StagedRows.Valid, Insertable, Acceptable, TableInv, KeysDistinct, BecameActive, OfFormat;
      NothingActivated(table, s, ContentOf(s));
      var batches := ReadBatches(s);
      var row, report := InsertRows(table, s, batches, world, ContentOf(s));
      reports := report;
      if row.Err? {
        return Err(row.error), Unchanged, reports;
      }
      if SupersedeRows in world.fails || Update in world.fails || Commit in world.fails {
        return Err(Database), Unchanged, reports;
      }
      e := InsertedActive(s.id, row.value);
      NewActive(table, s, ContentOf(s), row.value);
      KindOfFormat(row.value.kind, s.format);
      var draft := Supersede(table[s.id := row.value], s.owner, SnapshotKind(s.format), s.id);
      table := draft[s.id := draft[s.id].(status := Active)];
      r := Ok(s.id);
    }
  }

  /** `id` is active and is the only active snapshot of its owner and kind. */
  ghost predicate OnlyActive(t: Table, id: Id) {
    id in t && forall a :: a in t && SameSlot(t[a], t[id].owner, t[id].kind) ==> (t[a].status.Active? <==> a == id)
  }

  lemma PromotesOnly(t: Table, id: Id)
    requires id in t
    ensures OnlyActive(Promote(t, id), id)
  {
  }

  /** What an activate call did: an error changes nothing; success leaves the content as the one
      active snapshot of its slot, under the id it had, or stored whole under the new id. */
  ghost predicate BecameActive(t: Table, t': Table, s: Prepared, c: Content, r: Result<Id>, e: Effect) {
    && Allowed(t, e) && t' == Apply(t, e)
    && (r.Err? ==> e.Unchanged?)
    && (r.Ok? ==> Known(t', s, r.value) && OnlyActive(t', r.value))
    && (r.Ok? ==> if Known(t, s, r.value) then e == Reactivated(r.value)
                  else e.InsertedActive? && e.id == s.id == r.value && Holds(e.row, s, c))
    && (r.Ok? ==> forall k :: Known(t, s, k) ==> k == r.value)
  }

  /** When activation succeeds if nothing else fails. */
  ghost predicate ActivateAccepts(t: Table, s: Prepared, c: Content) {
    Acceptable(s, c) && ((exists k :: Known(t, s, k)) || (s.id !in t && Insertable(s, c)))
  }

  lemma NotAcceptable(t: Table, s: Prepared, c: Content)
    ensures ActivateAccepts(t, s, c) ==> Acceptable(s, c)
  {
  }

  lemma ActivatesKnown(t: Table, s: Prepared, c: Content, k: Id)
    requires Known(t, s, k) && Acceptable(s, c)
    ensures ActivateAccepts(t, s, c)
  {
  }

  lemma ActivatesNew(t: Table, s: Prepared, c: Content)
    requires forall k :: k in t ==> !SameContent(t[k], s.owner, SnapshotKind(s.format), s.checksum)
    requires Acceptable(s, c)
    ensures ActivateAccepts(t, s, c) <==> s.id !in t && Insertable(s, c)
  {
  }

  lemma ApplyUnchanged(t: Table)
    ensures Allowed(t, Unchanged) && Apply(t, Unchanged) == t
  {
  }

  lemma NothingActivated(t: Table, s: Prepared, c: Content)
    ensures forall error :: BecameActive(t, t, s, c, Err(error), Unchanged)
  {
  }

  lemma NewActive(t: Table, s: Prepared, c: Content, row: Stored)
    requires TableInv(t)
    requires forall k :: k in t ==> !SameContent(t[k], s.owner, SnapshotKind(s.format), s.checksum)
    requires s.id !in t && Insertable(s, c) && Acceptable(s, c) && Holds(row, s, c) && row.status.Staging?
    ensures var e := InsertedActive(s.id, row);
            Allowed(t, e) && TableInv(Apply(t, e)) && BecameActive(t, Apply(t, e), s, c, Ok(s.id), e)
  {
    var e := InsertedActive(s.id, row);
    NewRowAllowed(t, s, c, row);
    ApplyKeeps(t, e);
    PromotesOnly(t[s.id := row], s.id);
    hide TableInv, OnlyActive, Holds;
  }

  lemma NewStaged(t: Table, ob: seq<Intent>, s: Prepared, c: Content, row: Stored, parent: Option<(Id, int)>)
    requires TableInv(t) && KeysDistinct(ob)
    requires forall k :: k in t ==> !SameContent(t[k], s.owner, SnapshotKind(s.format), s.checksum)
    requires s.id !in t && Insertable(s, c) && Acceptable(s, c) && Holds(row, s, c) && row.status.Staging? && row.staged
    ensures Staged(t, ob, t[s.id := row], StageDispatch(ob, parent, s.id), s, c, parent, Ok(s.id), Inserted(s.id, row))
    ensures TableInv(t[s.id := row]) && KeysDistinct(StageDispatch(ob, parent, s.id))
  {
    NewRowAllowed(t, s, c, row);
    ApplyKeeps(t, Inserted(s.id, row));
    DispatchDistinct(ob, parent, s.id);
    hide TableInv, KeysDistinct, StageDispatch, Holds;
  }

  /** Staging leaves exactly one intent for the parent and the snapshot: the one that was there, or
      a new last one with the requested partitions; without a parent nothing is queued. */
  lemma DispatchExactly(ob: seq<Intent>, parent: Option<(Id, int)>, snapshot: Id)
    requires KeysDistinct(ob)
    ensures var ob' := StageDispatch(ob, parent, snapshot);
            if parent.None? || exists i :: 0 <= i < |ob| && ob[i].parent == parent.value.0 && ob[i].snapshot == snapshot then ob' == ob
            else |ob'| == |ob| + 1 && ob'[..|ob|] == ob
                 && ob'[|ob|].parent == parent.value.0 && ob'[|ob|].snapshot == snapshot && ob'[|ob|].partitions == parent.value.1
  {
  }

  lemma DispatchDistinct(outbox: seq<Intent>, parent: Option<(Id, int)>, snapshot: Id)
    requires KeysDistinct(outbox)
    ensures KeysDistinct(StageDispatch(outbox, parent, snapshot))
  {
  }
}
