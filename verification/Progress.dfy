/** The percent a refresh reports, in saturating machine arithmetic. */
module Progress {
  import opened Common

  const U64_MAX: nat := 0xFFFF_FFFF_FFFF_FFFF
  const I64_MAX: nat := 0x7FFF_FFFF_FFFF_FFFF
  const U8_MAX: nat := 0xFF

  /** `completed.saturating_mul(span).checked_div(total).unwrap_or(0)` below `limit`. */
  function Share(completed: nat, span: nat, total: nat, limit: nat): nat {
    if total == 0 then 0 else Min(completed * span, limit) / total
  }

  lemma MulMonotone(d: nat, x: int, y: int)
    requires x <= y
    ensures d * x <= d * y
  {
  }

  lemma DivAtLeast(a: nat, d: nat, k: nat)
    requires d > 0
    ensures a / d >= k <==> a >= d * k
  {
    var q := a / d;
    assert d * q <= a < d * (q + 1);
    if q >= k {
      MulMonotone(d, k, q);
    } else {
      MulMonotone(d, q + 1, k);
    }
  }

  lemma DivMonotone(a: nat, b: nat, d: nat)
    requires a <= b && d > 0
    ensures a / d <= b / d
  {
    DivAtLeast(a, d, a / d);
    DivAtLeast(b, d, a / d);
  }

  /** The share is the product rounded down to whole parts of the total; a product over the limit
      counts as the limit. */
  lemma ShareValue(completed: nat, span: nat, total: nat, limit: nat)
    requires total > 0
    ensures var share := Share(completed, span, total, limit);
            var product := if completed * span > limit then limit else completed * span;
            share * total <= product < (share + 1) * total
  {
    var product := if completed * span > limit then limit else completed * span;
    var share := Share(completed, span, total, limit);
    DivAtLeast(product, total, share);
    DivAtLeast(product, total, share + 1);
  }

  /** A larger count gives no smaller share, and a count within the total no more than the span. */
  lemma ShareMonotone(a: nat, b: nat, span: nat, total: nat, limit: nat)
    requires a <= b
    ensures Share(a, span, total, limit) <= Share(b, span, total, limit)
    ensures b <= total ==> Share(b, span, total, limit) <= span
  {
    if total > 0 {
      MulMonotone(span, a, b);
      DivMonotone(Min(a * span, limit), Min(b * span, limit), total);
      if b <= total {
        DivAtLeast(Min(b * span, limit), total, span + 1);
        MulMonotone(span, b, total);
      }
    }
  }

  /** A complete count gives the whole span exactly when its product does not saturate. */
  lemma FullShare(span: nat, total: nat, limit: nat)
    requires total > 0
    ensures Share(total, span, total, limit) == span <==> total * span <= limit
  {
    var product := Min(total * span, limit);
    DivAtLeast(product, total, span);
    DivAtLeast(product, total, span + 1);
  }

  function BatchPercent(start: nat, end: nat, completed: nat, total: nat): nat {
    var span := if end > start then end - start else 0;
    Min(start + Min(Share(completed, span, total, U64_MAX), span), U8_MAX)
  }

  function StagingPercent(prepared: nat, seen: nat): nat {
    55 + Min(Share(Min(prepared, seen), 15, seen, U64_MAX), 15)
  }

  /** The counts are signed here. */
  function PartitionPercent(completed: int, total: int): int {
    if total <= 0 then 85
    else
      var clamped := if completed < 0 then 0 else if completed > total then total else completed;
      85 + Share(clamped, 14, total, I64_MAX)
  }

  /** Partition progress stays in its band and does not fall; a complete run shows 99 exactly
      when 14 times its size fits the machine integer. */
  lemma PartitionBand(a: int, b: int, total: int)
    requires a <= b
    ensures 85 <= PartitionPercent(a, total) <= PartitionPercent(b, total) <= 99
    ensures total > 0 && b >= total ==> (PartitionPercent(b, total) == 99 <==> 14 * total <= I64_MAX)
  {
    if total > 0 {
      var low := if a < 0 then 0 else if a > total then total else a;
      var high := if b < 0 then 0 else if b > total then total else b;
      ShareMonotone(low, high, 14, total, I64_MAX);
      FullShare(14, total, I64_MAX);
    }
  }

  /** `p` of `span` parts for `product` of `span * total`: all of them from the whole on, below it
      as many as fit, and none without a total. */
  ghost predicate PartOf(p: int, span: nat, product: nat, total: nat) {
    if total == 0 then p == 0
    else if product >= span * total then p == span
    else p * total <= product < (p + 1) * total
  }

  lemma ShareIsPart(completed: nat, span: nat, total: nat, limit: nat)
    ensures PartOf(Min(Share(completed, span, total, limit), span), span, Min(completed * span, limit), total)
  {
    if total > 0 {
      ShareValue(completed, span, total, limit);
      DivAtLeast(Min(completed * span, limit), total, span);
    }
  }

  /** Partition progress is 85 plus the part of 14 that the keys make up, a count outside the run
      taken as its nearest end, in 64 bits. */
  lemma PartitionValue(completed: int, total: int)
    ensures total <= 0 ==> PartitionPercent(completed, total) == 85
    ensures total > 0 ==>
              var keys: nat := if completed < 0 then 0 else if completed > total then total else completed;
              PartOf(PartitionPercent(completed, total) - 85, 14, if keys * 14 > I64_MAX then I64_MAX else keys * 14, total)
  {
    if total > 0 {
      var keys: nat := if completed < 0 then 0 else if completed > total then total else completed;
      ShareIsPart(keys, 14, total, I64_MAX);
      ShareMonotone(keys, keys, 14, total, I64_MAX);
    }
  }

  /** Staging progress is 55 plus the part of 15 that the records make up. */
  lemma StagingValue(prepared: nat, seen: nat)
    ensures var staged := if prepared > seen then seen else prepared;
            PartOf(StagingPercent(prepared, seen) - 55, 15, if staged * 15 > U64_MAX then U64_MAX else staged * 15, seen)
  {
    ShareIsPart(Min(prepared, seen), 15, seen, U64_MAX);
  }

  /** Batch progress is its start plus the part of its span that the records make up. */
  lemma BatchValue(start: nat, end: nat, completed: nat, total: nat)
    requires start <= end <= U8_MAX
    ensures var span := end - start;
            PartOf(BatchPercent(start, end, completed, total) - start, span,
                   if completed * span > U64_MAX then U64_MAX else completed * span, total)
  {
    ShareIsPart(completed, end - start, total, U64_MAX);
  }

  // --------------------------------------------------------------- pipeline

  datatype Phase =
    | Other | Downloading | Downloaded | Decoded | Parsed | Staging | Activated | Staged
    | ReconcilingPartitions | ReconcilingChannels | ReconcilingSnapshot | ReconcilingChannelBatch | ReconcilingLinkBatch
    | ReconcilingOrphanBatch | ReconcilingRevision | ReconcilingEpg | ReconcilingEvents | ReconcilingComplete

  /** The place of a phase in the pipeline. */
  function Rank(p: Phase): nat {
    match p
    case Other => 0 case Downloading => 1 case Downloaded => 2 case Decoded => 3 case Parsed => 4 case Staging => 5
    case Activated => 6 case Staged => 7 case ReconcilingPartitions => 8 case ReconcilingChannels => 9
    case ReconcilingSnapshot => 10 case ReconcilingChannelBatch => 11 case ReconcilingLinkBatch => 12
    case ReconcilingOrphanBatch => 13 case ReconcilingRevision => 14 case ReconcilingEpg => 15
    case ReconcilingEvents => 16 case ReconcilingComplete => 17
  }

  datatype Checkpoint = Checkpoint(phase: Phase, downloaded: nat, seen: nat, prepared: nat)

  /** The download curve: any function that does not fall and stays within 1 and 14. */
  ghost predicate Curve(f: nat -> nat) {
    (forall n :: 1 <= f(n) <= 14) && forall m, n :: m <= n ==> f(m) <= f(n)
  }

  function Percent(f: nat -> nat, c: Checkpoint): nat {
    match c.phase
    case Other => 0
    case Downloading => f(c.downloaded)
    case Downloaded => 15
    case Decoded => 30
    case Parsed => 45
    case Staging => StagingPercent(c.prepared, c.seen)
    case Activated => 70
    case Staged => 70
    case ReconcilingPartitions => 85
    case ReconcilingChannels => 85
    case ReconcilingSnapshot => 86
    case ReconcilingChannelBatch => BatchPercent(86, 90, c.prepared, c.seen)
    case ReconcilingLinkBatch => BatchPercent(91, 94, c.prepared, c.seen)
    case ReconcilingOrphanBatch => 95
    case ReconcilingRevision => 96
    case ReconcilingEpg => 97
    case ReconcilingEvents => 98
    case ReconcilingComplete => 99
  }

  /** The least and the greatest percent of the phase at each place. */
  function Floor(rank: nat): nat {
    [0, 1, 15, 30, 45, 55, 70, 70, 85, 85, 86, 86, 91, 95, 96, 97, 98, 99, 99][Min(rank, 18)]
  }

  function Ceiling(rank: nat): nat {
    [0, 14, 15, 30, 45, 70, 70, 70, 85, 85, 86, 90, 94, 95, 96, 97, 98, 99, 99][Min(rank, 18)]
  }

  /** Every percent lies in the band of its phase, whatever the counts. */
  lemma Banded(f: nat -> nat, c: Checkpoint)
    requires Curve(f)
    ensures Floor(Rank(c.phase)) <= Percent(f, c) <= Ceiling(Rank(c.phase)) <= 99
  {
    hide Share;
  }

  /** The percent of the phases that count: 15 parts above 55 for staging, 4 above 86 for channels,
      3 above 91 for links. */
  lemma CountedValue(f: nat -> nat, c: Checkpoint)
    ensures c.phase.Staging? ==> PartOf(Percent(f, c) - 55, 15, Min(Min(c.prepared, c.seen) * 15, U64_MAX), c.seen)
    ensures c.phase.ReconcilingChannelBatch? ==> PartOf(Percent(f, c) - 86, 4, Min(c.prepared * 4, U64_MAX), c.seen)
    ensures c.phase.ReconcilingLinkBatch? ==> PartOf(Percent(f, c) - 91, 3, Min(c.prepared * 3, U64_MAX), c.seen)
  {
    StagingValue(c.prepared, c.seen);
    BatchValue(86, 90, c.prepared, c.seen);
    BatchValue(91, 94, c.prepared, c.seen);
    hide BatchPercent, StagingPercent, PartOf;
  }

  lemma BandsRise(low: nat, high: nat)
    requires low < high <= 17
    ensures Ceiling(low) <= Floor(high)
  {
  }

  /** The phases whose percent is a share of a total. */
  predicate Counting(p: Phase) {
    p.Staging? || p.ReconcilingChannelBatch? || p.ReconcilingLinkBatch?
  }

  /** `b` may follow `a`: a later phase, or the same one with no fewer bytes and, where a total
      counts, the same total and no smaller count. */
  predicate Follows(a: Checkpoint, b: Checkpoint) {
    || Rank(a.phase) < Rank(b.phase)
    || (a.phase == b.phase && a.downloaded <= b.downloaded
        && (Counting(a.phase) ==> a.seen == b.seen && a.prepared <= b.prepared))
  }

  lemma StepRises(f: nat -> nat, a: Checkpoint, b: Checkpoint)
    requires Curve(f) && Follows(a, b)
    ensures Percent(f, a) <= Percent(f, b)
  {
    if Rank(a.phase) < Rank(b.phase) {
      Banded(f, a);
      Banded(f, b);
      BandsRise(Rank(a.phase), Rank(b.phase));
    } else if Counting(a.phase) {
      ShareMonotone(a.prepared, b.prepared, 4, a.seen, U64_MAX);
      ShareMonotone(a.prepared, b.prepared, 3, a.seen, U64_MAX);
      ShareMonotone(Min(a.prepared, a.seen), Min(b.prepared, a.seen), 15, a.seen, U64_MAX);
      hide Share;
    }
  }

  /** Over every run of checkpoints in pipeline order the reported percent never falls. */
  lemma {:induction false} PercentNeverFalls(f: nat -> nat, run: seq<Checkpoint>, i: nat, j: nat)
    requires Curve(f) && i <= j < |run|
    requires forall k :: 0 < k < |run| ==> Follows(run[k - 1], run[k])
    ensures Percent(f, run[i]) <= Percent(f, run[j])
    decreases j - i
  {
    if i < j {
      PercentNeverFalls(f, run, i, j - 1);
      StepRises(f, run[j - 1], run[j]);
    }
  }
}
