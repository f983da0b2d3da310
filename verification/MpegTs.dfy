/** Checking an MPEG transport stream chunk by chunk against the check of the whole stream. */
module MpegTs {
  import opened Common

  type Byte = b: int | 0 <= b < 256

  const MPEG_TS_PACKET_SIZE: nat := 188
  const SYNC_BYTE: Byte := 0x47

  datatype Verdict = Accepted(packets: nat) | SyncLost(packet: nat) | Incomplete(bytes: nat)

  /** Packet `k` is complete and does not start with the sync byte. */
  predicate BadPacket(s: seq<Byte>, k: nat) {
    188 * (k + 1) <= |s| && s[188 * k] != 0x47
  }

  /** The verdict on a whole stream. */
  ghost predicate Judged(s: seq<Byte>, v: Verdict) {
    match v
    case Accepted(n) => |s| == n * 188 && forall k: nat :: !BadPacket(s, k)
    case SyncLost(n) => BadPacket(s, n) && forall k: nat :: k < n ==> !BadPacket(s, k)
    case Incomplete(n) => n == |s| % 188 && n > 0 && forall k: nat :: !BadPacket(s, k)
  }

  /** Every stream has exactly one verdict. */
  lemma JudgedOnce(s: seq<Byte>, v: Verdict, v': Verdict)
    requires Judged(s, v) && Judged(s, v')
    ensures v == v'
  {
    match (v, v') {
      case (SyncLost(n), SyncLost(n')) => assert n < n' || n' < n || n == n';
      case _ =>
    }
  }

  /** A sync failure of a prefix is one of the whole stream, at the same packet. */
  lemma SyncLostStays(s: seq<Byte>, rest: seq<Byte>, n: nat)
    requires Judged(s, SyncLost(n))
    ensures Judged(s + rest, SyncLost(n))
  {
    forall k: nat | k <= n ensures BadPacket(s + rest, k) <==> BadPacket(s, k) {
      assert MPEG_TS_PACKET_SIZE * k < |s|;
      assert (s + rest)[MPEG_TS_PACKET_SIZE * k] == s[MPEG_TS_PACKET_SIZE * k];
    }
  }

  lemma {:induction false} FlattenAt(chunks: seq<seq<Byte>>, i: nat)
    requires i <= |chunks|
    ensures Flatten(chunks) == Flatten(chunks[..i]) + Flatten(chunks[i..])
  {
    if i == 0 {
      assert chunks[0..] == chunks;
    } else {
      assert chunks[1..][..i - 1] == chunks[..i][1..] && chunks[1..][i - 1..] == chunks[i..];
      FlattenAt(chunks[1..], i - 1);
    }
  }

  /** The chunks up to the next one. */
  lemma FlattenNext(chunks: seq<seq<Byte>>, i: nat)
    requires i < |chunks|
    ensures Flatten(chunks[..i + 1]) == Flatten(chunks[..i]) + chunks[i]
  {
    FlattenAt(chunks[..i + 1], i);
    assert chunks[..i + 1][..i] == chunks[..i] && chunks[..i + 1][i..] == [chunks[i]];
  }

  class MpegTsValidator {
    var pending: seq<Byte>
    var bytes: nat
    var packets: nat
    ghost var stream: seq<Byte>

    /** Everything fed so far was good; the bytes of the last, incomplete packet are pending. */
    ghost predicate Valid()
      reads this
    {
      && bytes == |stream| && packets * MPEG_TS_PACKET_SIZE + |pending| == |stream| && |pending| < MPEG_TS_PACKET_SIZE
      && pending == stream[packets * MPEG_TS_PACKET_SIZE..]
      && forall k: nat :: !BadPacket(stream, k)
    }

    constructor ()
      ensures Valid() && stream == []
    {
      pending := [];
      bytes := 0;
      packets := 0;
      stream := [];
    }

    /** Takes the next bytes, or names the first packet of the stream without a sync byte. */
    method Feed(payload: seq<Byte>) returns (lost: bool)
      requires Valid()
      modifies this
      ensures stream == old(stream) + payload && bytes == |stream|
      ensures !lost ==> Valid()
      ensures lost ==> Judged(stream, SyncLost(packets))
    {
      ghost var first := packets;
      bytes := bytes + |payload|;
      pending := pending + payload;
      stream := stream + payload;
      Rebase(old(stream), payload, first);
      assert pending == stream[first * MPEG_TS_PACKET_SIZE..];
      var aligned := |pending| / MPEG_TS_PACKET_SIZE * MPEG_TS_PACKET_SIZE;
      var offset := 0;
      while offset < aligned
        invariant 0 <= offset <= aligned && offset == (packets - first) * MPEG_TS_PACKET_SIZE
        invariant forall k: nat :: k < packets ==> !BadPacket(stream, k)
        invariant stream == old(stream) + payload && bytes == |stream|
        invariant first * MPEG_TS_PACKET_SIZE + |pending| == |stream| && pending == stream[first * MPEG_TS_PACKET_SIZE..]
        decreases aligned - offset
      {
        assert offset + MPEG_TS_PACKET_SIZE <= aligned;
        assert pending[offset] == stream[packets * MPEG_TS_PACKET_SIZE];
        if pending[offset] != SYNC_BYTE {
          return true;
        }
        packets := packets + 1;
        offset := offset + MPEG_TS_PACKET_SIZE;
      }
      pending := pending[aligned..];
      return false;
    }

    method Finish() returns (v: Verdict)
      requires Valid()
      ensures Judged(stream, v)
    {
      if pending != [] {
        return Incomplete(|pending|);
      }
      return Accepted(packets);
    }
  }

  /** The packets of the longer stream that were complete before are as they were. */
  lemma Rebase(s: seq<Byte>, rest: seq<Byte>, packets: nat)
    requires packets * MPEG_TS_PACKET_SIZE <= |s|
    ensures forall k: nat :: k < packets ==> (BadPacket(s + rest, k) <==> BadPacket(s, k))
  {
    forall k: nat | k < packets ensures BadPacket(s + rest, k) <==> BadPacket(s, k) {
      assert (s + rest)[MPEG_TS_PACKET_SIZE * k] == s[MPEG_TS_PACKET_SIZE * k];
    }
  }

  /** However a stream is cut, feeding the pieces and finishing gives the verdict on the whole. */
  method Validate(chunks: seq<seq<Byte>>) returns (v: Verdict)
    ensures Judged(Flatten(chunks), v)
  {
    var validator := new MpegTsValidator();
    for i := 0 to |chunks|
      invariant validator.Valid() && validator.stream == Flatten(chunks[..i])
    {
      FlattenNext(chunks, i);
      var lost := validator.Feed(chunks[i]);
      if lost {
        FlattenAt(chunks, i + 1);
        SyncLostStays(validator.stream, Flatten(chunks[i + 1..]), validator.packets);
        return SyncLost(validator.packets);
      }
    }
    assert chunks[..|chunks|] == chunks;
    v := validator.Finish();
  }
}
