/** Rows staged in memory up to a bound, then as lines of an anonymous file. */
module StagedRows {
  import opened Common

  newtype byte = b: int | 0 <= b < 256

  datatype Pushed = Ok | StagingTooLarge

  const NEWLINE: byte := 10
  const U64_MAX: nat := 0xFFFF_FFFF_FFFF_FFFF
  const ISIZE_MAX: nat := 0x7FFF_FFFF_FFFF_FFFF
  const BUFFER_CAPACITY: nat := 8192

  predicate IsSpace(b: byte) {
    b == 32 || 9 <= b <= 13
  }

  /** The JSON codec of one row type. */
  datatype Codec<!T> = Codec(enc: T -> seq<byte>, dec: seq<byte> -> Option<T>)

  /** Decoding undoes encoding; an encoding is one nonempty line without trailing space. */
  ghost predicate Lawful<T(!new)>(c: Codec<T>) {
    forall x: T ::
      && c.dec(c.enc(x)) == Some(x)
      && 0 < |c.enc(x)| <= ISIZE_MAX
      && NEWLINE !in c.enc(x)
      && !IsSpace(c.enc(x)[|c.enc(x)| - 1])
  }

  function Line<T>(c: Codec<T>, row: T): seq<byte> {
    c.enc(row) + [NEWLINE]
  }

  /** The bytes of the rows as JSON lines. */
  function Lines<T>(c: Codec<T>, rows: seq<T>): seq<byte> {
    if rows == [] then [] else Line(c, rows[0]) + Lines(c, rows[1..])
  }

  lemma {:induction false} LinesAppend<T>(c: Codec<T>, rows: seq<T>, more: seq<T>)
    ensures Lines(c, rows + more) == Lines(c, rows) + Lines(c, more)
  {
    if rows == [] {
      assert rows + more == more;
    } else {
      LinesAppend(c, rows[1..], more);
      assert (rows + more)[1..] == rows[1..] + more;
      assert Lines(c, rows + more) == Line(c, rows[0]) + Lines(c, rows[1..] + more);
    }
  }

  lemma LinesPush<T>(c: Codec<T>, rows: seq<T>, row: T)
    ensures Lines(c, rows + [row]) == Lines(c, rows) + Line(c, row)
  {
    LinesAppend(c, rows, [row]);
    assert Lines(c, [row]) == Line(c, row) + Lines(c, [row][1..]);
  }

  function TrimEnd(s: seq<byte>): seq<byte> {
    if s != [] && IsSpace(s[|s| - 1]) then TrimEnd(s[..|s| - 1]) else s
  }

  lemma LineDecodes<T(!new)>(c: Codec<T>, row: T)
    requires Lawful(c)
    ensures c.dec(TrimEnd(Line(c, row))) == Some(row) && Line(c, row)[|Line(c, row)| - 1] == 0x0A
  {
    var text := c.enc(row);
    var line := Line(c, row);
    assert line[..|line| - 1] == text;
    assert TrimEnd(line) == TrimEnd(text) == text;
  }

  // ---------------------------------------------------------------- batches

  /** The rows cut into batches of `size`, the last one possibly shorter. */
  function Chunks<T>(rows: seq<T>, size: nat): seq<seq<T>>
    requires size > 0
    decreases |rows|
  {
    if rows == [] then [] else [rows[..Min(size, |rows|)]] + Chunks(rows[Min(size, |rows|)..], size)
  }

  /** Batches are nonempty, all but the last are full, and together they are the rows in order. */
  lemma {:induction false} ChunksCut<T>(rows: seq<T>, size: nat)
    requires size > 0
    ensures Flatten(Chunks(rows, size)) == rows
    ensures forall i :: 0 <= i < |Chunks(rows, size)| ==> 0 < |Chunks(rows, size)[i]| <= size
    ensures forall i :: 0 <= i < |Chunks(rows, size)| - 1 ==> |Chunks(rows, size)[i]| == size
    decreases |rows|
  {
    if rows != [] {
      var n := Min(size, |rows|);
      var rest := rows[n..];
      ChunksCut(rest, size);
      assert rows == rows[..n] + rest;
      var all := Chunks(rows, size);
      assert all[1..] == Chunks(rest, size);
      forall i | 0 <= i < |all| ensures 0 < |all[i]| <= size && (i < |all| - 1 ==> |all[i]| == size) {
        if i > 0 {
          assert all[i] == Chunks(rest, size)[i - 1];
        } else if |all| > 1 {
          assert rest != [];
        }
      }
    }
  }

  /** There is only one way to cut rows into full batches with a possibly shorter last one. */
  lemma {:induction false} CutIsUnique<T>(batches: seq<seq<T>>, size: nat)
    requires size > 0
    requires forall i :: 0 <= i < |batches| ==> 0 < |batches[i]| <= size
    requires forall i :: 0 <= i < |batches| - 1 ==> |batches[i]| == size
    ensures Chunks(Flatten(batches), size) == batches
  {
    if batches != [] {
      var rest := batches[1..];
      CutIsUnique(rest, size);
      var rows := Flatten(batches);
      if rest == [] {
        assert Flatten(rest) == [];
        assert rows == batches[0];
        assert rows[Min(size, |rows|)..] == [];
      } else {
        assert |batches[0]| == size;
        assert rows[..size] == batches[0] && rows[size..] == Flatten(rest);
      }
    }
  }

  // ------------------------------------------------------------- the spool

  /** What a write of `bytes` at `cursor` makes of a file. */
  function Overwrite(data: seq<byte>, cursor: nat, bytes: seq<byte>): seq<byte>
    requires cursor <= |data|
  {
    data[..cursor] + bytes + (if cursor + |bytes| <= |data| then data[cursor + |bytes|..] else [])
  }

  /** A write replaces the bytes from the cursor on, as many as it has, and keeps the others. */
  lemma OverwriteMeans(data: seq<byte>, cursor: nat, bytes: seq<byte>)
    requires cursor <= |data|
    ensures var data' := Overwrite(data, cursor, bytes);
            && |data'| == (if cursor + |bytes| > |data| then cursor + |bytes| else |data|)
            && forall k :: 0 <= k < |data'| ==> data'[k] == if cursor <= k < cursor + |bytes| then bytes[k - cursor] else data[k]
  {
  }

  /** An open file; clones of the handle share its cursor. */
  class Spool {
    var data: seq<byte>
    var cursor: nat

    constructor ()
      ensures data == [] && cursor == 0
    {
      data := [];
      cursor := 0;
    }

    method Write(bytes: seq<byte>)
      requires cursor <= |data|
      modifies this
      ensures data == Overwrite(old(data), old(cursor), bytes) && cursor == old(cursor) + |bytes| <= |data|
      ensures old(cursor) == |old(data)| ==> data == old(data) + bytes && cursor == |data|
    {
      data := Overwrite(data, cursor, bytes);
      cursor := cursor + |bytes|;
    }

    method Rewind()
      modifies this`cursor
      ensures cursor == 0
    {
      cursor := 0;
    }
  }

  /** Writes one line unless the limit forbids it; `next` is the new byte count. */
  method WriteJsonLine<T(!new)>(file: Spool, c: Codec<T>, row: T, written: nat, limit: nat) returns (next: Option<nat>)
    requires Lawful(c) && file.cursor <= |file.data| && written <= limit <= U64_MAX
    modifies file
    ensures next.Some? <==> written + |Line(c, row)| <= limit
    ensures next.Some? ==> next.value == written + |Line(c, row)|
    ensures next.Some? ==> file.data == Overwrite(old(file.data), old(file.cursor), Line(c, row))
    ensures next.Some? ==> file.cursor == old(file.cursor) + |Line(c, row)| <= |file.data|
    ensures next.Some? && old(file.cursor) == |old(file.data)| ==> file.data == old(file.data) + Line(c, row) && file.cursor == |file.data|
    ensures next.None? ==> unchanged(file)
  {
    var encoded := c.enc(row);
    var recordBytes := if |encoded| >= U64_MAX then U64_MAX else |encoded| + 1;
    var sum := written + recordBytes;
    if sum > U64_MAX {
      return None;
    }
    if sum > limit {
      return None;
    }
    file.Write(Line(c, row));
    return Some(sum);
  }

  /** Buffered rows do not fit the spool, so spilling them fails half way. */
  ghost predicate SpillFails<T>(c: Codec<T>, memory: seq<T>, limit: nat) {
    |Lines(c, memory)| > limit
  }

  class StagedRows<T(!new)> {
    const codec: Codec<T>
    const maxInMemory: nat
    const maxSpoolBytes: nat
    var spoolBytes: nat
    var len: nat
    var memory: seq<T>
    var spool: Spool?
    /** The rows pushed so far. */
    ghost var rows: seq<T>

    /** Memory is bounded and empty once spooled, and the spool is exactly the rows' lines. */
    ghost predicate Valid()
      reads this, spool
    {
      && Lawful(codec) && maxInMemory >= 1 && maxSpoolBytes <= U64_MAX
      && len == |rows|
      && (spool == null ==> memory == rows && |memory| <= maxInMemory && spoolBytes == 0)
      && (spool != null ==>
            && memory == []
            && spool.data == Lines(codec, rows)
            && spoolBytes == |spool.data| <= maxSpoolBytes
            && spool.cursor <= |spool.data|)
    }

    /** The shared cursor stands where the next line belongs. */
    ghost predicate AtEnd()
      reads this, spool
    {
      spool != null ==> spool.cursor == |spool.data|
    }

    constructor (codec: Codec<T>, maxInMemory: nat, maxSpoolBytes: nat)
      requires Lawful(codec) && maxSpoolBytes <= U64_MAX
      ensures Valid() && AtEnd() && rows == [] && len == 0 && spool == null
      ensures this.codec == codec && this.maxSpoolBytes == maxSpoolBytes
      ensures this.maxInMemory == if maxInMemory < 1 then 1 else maxInMemory
    {
      this.codec := codec;
      this.maxInMemory := if maxInMemory < 1 then 1 else maxInMemory;
      this.maxSpoolBytes := maxSpoolBytes;
      spoolBytes := 0;
      len := 0;
      memory := [];
      spool := null;
      rows := [];
    }

    /** Moves the buffered rows to a new file.  A row that does not fit ends the spill with
        the buffer drained and the file dropped. */
    method Spill() returns (ok: bool)
      requires Valid() && spool == null
      modifies this`memory, this`spool, this`spoolBytes
      ensures ok <==> !SpillFails(codec, rows, maxSpoolBytes)
      ensures ok ==> Valid() && AtEnd() && spool != null && fresh(spool)
      ensures !ok ==> memory == [] && spool == null
    {
      var file := new Spool();
      var drained := memory;
      memory := [];
      for i := 0 to |drained|
        invariant file.data == Lines(codec, drained[..i]) && file.cursor == |file.data|
        invariant spoolBytes == |file.data| <= maxSpoolBytes
        invariant spool == null && memory == [] && drained == rows
        modifies this`spoolBytes, file
      {
        assert drained[..i + 1] == drained[..i] + [drained[i]];
        LinesPush(codec, drained[..i], drained[i]);
        assert drained == drained[..i + 1] + drained[i + 1..];
        LinesAppend(codec, drained[..i + 1], drained[i + 1..]);
        var next := WriteJsonLine(file, codec, drained[i], spoolBytes, maxSpoolBytes);
        if next.None? {
          return false;
        }
        spoolBytes := next.value;
      }
      assert drained[..|drained|] == drained;
      spool := file;
      return true;
    }

    /** A push succeeds in memory, or in the spool within its limit; a refused row changes
        nothing that is stored.  Two cases break the object: a spill that fails loses the
        buffered rows, and a cursor left inside the file by a reader misplaces the line. */
    method Push(row: T) returns (r: Pushed)
      requires Valid()
      modifies this, spool
      ensures old(spool == null && |memory| >= maxInMemory && SpillFails(codec, rows, maxSpoolBytes)) ==>
                r.StagingTooLarge? && memory == [] && spool == null && len == old(len) && rows == old(rows) && !Valid()
      ensures old(AtEnd() && !(spool == null && |memory| >= maxInMemory && SpillFails(codec, rows, maxSpoolBytes))) ==>
                && Valid() && AtEnd()
                && rows == (if r.Ok? then old(rows) + [row] else old(rows))
                && (r.Ok? <==> old(spool == null && |memory| < maxInMemory)
                               || |Lines(codec, old(rows) + [row])| <= maxSpoolBytes)
      ensures old(!AtEnd()) ==>
                && spool == old(spool)
                && (r.Ok? <==> |Lines(codec, old(rows) + [row])| <= maxSpoolBytes)
                && (r.Ok? ==> spool.data == old(Overwrite(spool.data, spool.cursor, Line(codec, row))) && !Valid())
                && rows == (if r.Ok? then old(rows) + [row] else old(rows))
                && (r.StagingTooLarge? ==> spool.data == old(spool.data) && Valid())
    {
      LinesPush(codec, rows, row);
      if spool == null && |memory| < maxInMemory {
        memory := memory + [row];
        rows := rows + [row];
        len := len + 1;
        return Ok;
      }
      if spool == null {
        var spilled := Spill();
        if !spilled {
          return StagingTooLarge;
        }
      }
      var next := WriteJsonLine(spool, codec, row, spoolBytes, maxSpoolBytes);
      if next.None? {
        return StagingTooLarge;
      }
      spoolBytes := next.value;
      rows := rows + [row];
      len := len + 1;
      return Ok;
    }

    /** Starts reading from the first row; the file cursor moves for the writer too. */
    method Batches(batchSize: nat) returns (reader: StagedBatchReader<T>)
      requires Valid()
      modifies spool
      ensures fresh(reader) && reader.Valid() && reader.remaining == rows && reader.spool == spool
      ensures reader.batchSize == (if batchSize < 1 then 1 else batchSize)
      ensures Valid() && (spool != null ==> spool.data == old(spool.data))
    {
      if spool != null {
        spool.Rewind();
      }
      reader := new StagedBatchReader(codec, memory, spool, batchSize, rows);
    }
  }

  // ------------------------------------------------------------- the reader

  /** Index of the first newline, or the length when there is none. */
  method FindNewline(s: seq<byte>) returns (i: nat)
    ensures i <= |s| && (forall k :: 0 <= k < i ==> s[k] != NEWLINE) && (i < |s| ==> s[i] == NEWLINE)
  {
    i := 0;
    while i < |s| && s[i] != NEWLINE
      invariant i <= |s| && forall k :: 0 <= k < i ==> s[k] != NEWLINE
    {
      i := i + 1;
    }
  }

  ghost predicate Terminated(line: seq<byte>) {
    line != [] && line[|line| - 1] == NEWLINE && NEWLINE !in line[..|line| - 1]
  }

  lemma ExtendLine(line: seq<byte>, taken: seq<byte>, rest: seq<byte>)
    requires taken != [] && NEWLINE !in line && NEWLINE !in taken[..|taken| - 1]
    ensures line + (taken + rest) == (line + taken) + rest
    ensures if taken[|taken| - 1] == NEWLINE then Terminated(line + taken) else NEWLINE !in line + taken
  {
    var longer := line + taken;
    assert longer[..|longer| - 1] == line + taken[..|taken| - 1];
    assert taken == taken[..|taken| - 1] + [taken[|taken| - 1]];
  }

  class StagedBatchReader<T(!new)> {
    const codec: Codec<T>
    const batchSize: nat
    const spool: Spool?
    var memory: seq<T>
    /** Bytes that the buffered reader took from the file and did not hand out yet. */
    var buffer: seq<byte>
    /** The rows still to be read. */
    ghost var remaining: seq<T>

    /** The buffer is the part of the file just before the cursor. */
    ghost predicate Buffered()
      reads this, spool
    {
      spool != null ==>
        && |buffer| <= spool.cursor <= |spool.data|
        && buffer == spool.data[spool.cursor - |buffer|..spool.cursor]
    }

    /** The bytes not handed out yet. */
    ghost function Unread(): seq<byte>
      requires spool != null && Buffered()
      reads this, spool
    {
      spool.data[spool.cursor - |buffer|..]
    }

    ghost predicate Valid()
      reads this, spool
    {
      && Lawful(codec) && batchSize >= 1 && Buffered()
      && (spool == null ==> memory == remaining)
      && (spool != null ==> Unread() == Lines(codec, remaining))
    }

    constructor (codec: Codec<T>, memory: seq<T>, spool: Spool?, batchSize: nat, ghost rows: seq<T>)
      requires Lawful(codec)
      requires spool == null ==> memory == rows
      requires spool != null ==> spool.cursor == 0 && spool.data == Lines(codec, rows)
      ensures Valid() && remaining == rows && this.spool == spool
      ensures this.batchSize == if batchSize < 1 then 1 else batchSize
    {
      this.codec := codec;
      this.memory := memory;
      this.spool := spool;
      this.batchSize := if batchSize < 1 then 1 else batchSize;
      buffer := [];
      remaining := rows;
      new;
      hide Lines, Lawful;
      if this.spool != null {
        assert this.spool.data[0..] == this.spool.data;
      }
    }

    /** Takes the next block of the file when the buffer is empty. */
    method Fill()
      requires spool != null && Buffered() && buffer == []
      modifies this`buffer, spool`cursor
      ensures Buffered() && Unread() == old(Unread()) && spool.data == old(spool.data)
      ensures buffer == [] <==> Unread() == []
    {
      var n := Min(BUFFER_CAPACITY, |spool.data| - spool.cursor);
      buffer := spool.data[spool.cursor..spool.cursor + n];
      spool.cursor := spool.cursor + n;
    }

    /** Hands out the first n buffered bytes. */
    method Take(n: nat) returns (taken: seq<byte>)
      requires spool != null && Buffered() && n <= |buffer|
      modifies this`buffer
      ensures Buffered() && taken == old(buffer)[..n] && buffer == old(buffer)[n..]
      ensures old(Unread()) == taken + Unread()
    {
      taken := buffer[..n];
      buffer := buffer[n..];
    }

    /** Hands out the bytes up to and including the next newline, or all of them. */
    method ReadUntilNewline() returns (line: seq<byte>)
      requires spool != null && Buffered()
      modifies this`buffer, spool`cursor
      ensures Buffered() && spool.data == old(spool.data) && line + Unread() == old(Unread())
      ensures Terminated(line) || (NEWLINE !in line && Unread() == [])
    {
      hide Buffered, Unread, Terminated;
      line := [];
      ghost var all := Unread();
      while true
        invariant Buffered() && spool.data == old(spool.data)
        invariant all == line + Unread() && NEWLINE !in line
        decreases |Unread()|
      {
        if buffer == [] {
          Fill();
          if buffer == [] {
            return;
          }
        }
        var i := FindNewline(buffer);
        ghost var before := line;
        var taken := Take(Min(i + 1, |buffer|));
        line := line + taken;
        ExtendLine(before, taken, Unread());
        if taken[|taken| - 1] == NEWLINE {
          return;
        }
      }
    }

    /** Hands out the line of the next row. */
    method ReadLine() returns (line: seq<byte>)
      requires spool != null && Valid()
      modifies this`buffer, this`remaining, spool`cursor
      ensures Valid() && spool.data == old(spool.data)
      ensures old(remaining) == [] ==> line == [] && remaining == [] && spool.cursor == |spool.data|
      ensures old(remaining) != [] ==> line == Line(codec, old(remaining)[0]) && remaining == old(remaining)[1..]
    {
      hide Lines, Lawful;
      ghost var all := Lines(codec, remaining);
      NoNewline(codec, remaining);
      line := ReadUntilNewline();
      if Terminated(line) {
        ghost var prefix := line[..|line| - 1];
        assert line == prefix + [NEWLINE];
        assert all == prefix + [NEWLINE] + Unread();
        FirstLine(codec, remaining, prefix, Unread());
        remaining := remaining[1..];
      } else {
        assert all == line;
      }
    }

    /** The next batch: the first `batchSize` rows still to be read, or what is left of them. */
    method Next() returns (batch: Option<seq<T>>)
      requires Valid()
      modifies this`memory, this`buffer, this`remaining, spool
      ensures Valid() && (spool != null ==> spool.data == old(spool.data))
      ensures batch.Some? <==> old(remaining) != []
      ensures batch.Some? ==> batch.value == old(remaining)[..Min(batchSize, |old(remaining)|)]
      ensures remaining == old(remaining)[Min(batchSize, |old(remaining)|)..]
      ensures batch.None? && spool != null ==> spool.cursor == |spool.data|
    {
      if spool == null {
        var n := Min(batchSize, |memory|);
        var taken := memory[..n];
        memory := memory[n..];
        remaining := remaining[n..];
        return if taken != [] then Some(taken) else None;
      }
      batch := NextSpooled();
    }

    /** The next row, decoded from its line. */
    method ReadRow() returns (row: Option<T>)
      requires spool != null && Valid()
      modifies this`buffer, this`remaining, spool`cursor
      ensures Valid() && spool.data == old(spool.data)
      ensures old(remaining) == [] ==> row == None && remaining == [] && spool.cursor == |spool.data|
      ensures old(remaining) != [] ==> row == Some(old(remaining)[0]) && remaining == old(remaining)[1..]
    {
      assert Lawful(codec);
      if remaining != [] {
        LineDecodes(codec, remaining[0]);
      }
      hide Lines, Lawful, Buffered, Unread, StagedBatchReader.Valid, TrimEnd;
      var line := ReadLine();
      if line == [] {
        return None;
      }
      return codec.dec(TrimEnd(line));
    }

    method NextSpooled() returns (batch: Option<seq<T>>)
      requires spool != null && Valid() && batchSize >= 1
      modifies this`buffer, this`remaining, spool`cursor
      ensures Valid() && spool.data == old(spool.data)
      ensures batch.Some? <==> old(remaining) != []
      ensures batch.Some? ==> batch.value == old(remaining)[..Min(batchSize, |old(remaining)|)]
      ensures remaining == old(remaining)[Min(batchSize, |old(remaining)|)..]
      ensures batch.None? ==> spool.cursor == |spool.data|
    {
      hide Lines, Lawful, Buffered, Unread, StagedBatchReader.Valid;
      var rows: seq<T> := [];
      ghost var all := remaining;
      while |rows| < batchSize
        invariant Valid() && spool.data == old(spool.data) && |rows| <= batchSize && all == rows + remaining
        decreases batchSize - |rows|
      {
        ghost var before := remaining;
        var row := ReadRow();
        if row.None? {
          break;
        }
        Shift(rows, before);
        rows := rows + [row.value];
      }
      assert all[..|rows|] == rows && all[|rows|..] == remaining;
      return if rows != [] then Some(rows) else None;
    }
  }

  lemma Shift<T>(rows: seq<T>, rest: seq<T>)
    requires rest != []
    ensures rows + rest == (rows + [rest[0]]) + rest[1..]
  {
  }

  lemma NoNewline<T>(c: Codec<T>, rows: seq<T>)
    ensures rows != [] ==> NEWLINE in Lines(c, rows)
    ensures rows == [] ==> Lines(c, rows) == []
  {
    if rows != [] {
      assert Lines(c, rows)[|c.enc(rows[0])|] == NEWLINE;
    }
  }

  /** The first newline of the lines ends the first row. */
  lemma FirstLine<T(!new)>(c: Codec<T>, rows: seq<T>, prefix: seq<byte>, rest: seq<byte>)
    requires Lawful(c) && NEWLINE !in prefix && Lines(c, rows) == prefix + [NEWLINE] + rest
    ensures rows != [] && prefix == c.enc(rows[0]) && rest == Lines(c, rows[1..])
  {
    var all := Lines(c, rows);
    assert all[|prefix|] == NEWLINE;
    var text := c.enc(rows[0]);
    assert all == text + [NEWLINE] + Lines(c, rows[1..]);
    assert all[|text|] == NEWLINE;
    assert forall k :: 0 <= k < |text| ==> all[k] == text[k];
    assert forall k :: 0 <= k < |prefix| ==> all[k] == prefix[k];
    assert |prefix| == |text|;
    assert all[..|text|] == text && all[..|prefix|] == prefix;
    assert all[|text| + 1..] == Lines(c, rows[1..]) && all[|prefix| + 1..] == rest;
  }

  lemma ChunksStep<T>(rows: seq<T>, size: nat)
    requires size > 0
    ensures Chunks(rows, size) == if rows == [] then [] else [rows[..Min(size, |rows|)]] + Chunks(rows[Min(size, |rows|)..], size)
  {
  }

  /** Reads a staged set to its end.  The batches depend on the pushed rows and the batch size
      alone, not on whether the rows stayed in memory, and the writer may then go on. */
  method CollectBatches<T(!new)>(staged: StagedRows<T>, size: nat) returns (batches: seq<seq<T>>)
    requires staged.Valid()
    modifies staged.spool
    ensures staged.Valid() && staged.AtEnd() && staged.rows == old(staged.rows)
    ensures batches == Chunks(staged.rows, if size < 1 then 1 else size)
  {
    hide Lines, Lawful, Chunks;
    var reader := staged.Batches(size);
    batches := [];
    ghost var k := reader.batchSize;
    while true
      invariant fresh(reader) && reader.Valid() && reader.spool == staged.spool && reader.batchSize == k
      invariant staged.Valid()
      invariant batches + Chunks(reader.remaining, k) == Chunks(staged.rows, k)
      decreases |reader.remaining|
    {
      ghost var before := reader.remaining;
      var batch := reader.Next();
      if batch.None? {
        ChunksStep(reader.remaining, k);
        break;
      }
      ChunksStep(before, k);
      batches := batches + [batch.value];
    }
  }

  // ------------------------------------------------- what breaks the object

  /** A line written at a cursor leaves the lines of all the rows exactly if the cursor stands at
      the end: anywhere before it the line overwrites what was stored. */
  lemma MisplacedLine<T>(c: Codec<T>, rows: seq<T>, row: T, cursor: nat)
    requires cursor <= |Lines(c, rows)|
    ensures Overwrite(Lines(c, rows), cursor, Line(c, row)) == Lines(c, rows + [row]) <==> cursor == |Lines(c, rows)|
  {
    LinesPush(c, rows, row);
    var data, line := Lines(c, rows), Line(c, row);
    assert |line| > 0;
    assert cursor < |data| ==> |Overwrite(data, cursor, line)| < |data| + |line|;
  }
}
