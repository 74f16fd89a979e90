/** Content cut into blocks of a fixed size, blocks of zeros left out; reading it back; and bringing a file from one
    version to another by writing only the blocks that differ.  A digest stands for the bytes it was taken of, as if no
    two byte strings had the same. */
module ContentChunks {
  import opened Basics

  const CHUNK: nat := 1024 * 1024
  const MAX_CHUNKS: nat := 65536

  datatype Reference = Reference(digest: Bytes, size: nat)

  datatype Manifest = Manifest(size: nat, digest: Bytes, chunks: seq<Option<Reference>>)

  function Count(size: nat): nat {
    (size + CHUNK - 1) / CHUNK
  }

  /** How many bytes block `i` of a content of `size` bytes has. */
  function BlockSize(size: nat, i: nat): nat
    requires i < Count(size)
  {
    if size - i * CHUNK < CHUNK then size - i * CHUNK else CHUNK
  }

  function Least(a: nat, b: nat): nat {
    if a <= b then a else b
  }

  function BlockAt(content: Bytes, i: nat): (b: Bytes)
    requires i < Count(|content|)
    ensures |b| == BlockSize(|content|, i)
  {
    content[i * CHUNK..i * CHUNK + BlockSize(|content|, i)]
  }

  /** A block of zeros needs no reference. */
  function Refer(block: Bytes): Option<Reference> {
    if block == Zeros(|block|) then None else Some(Reference(block, |block|))
  }

  function Referred(content: Bytes, n: nat): (r: seq<Option<Reference>>)
    requires n <= Count(|content|)
    ensures |r| == n
  {
    if n == 0 then [] else Referred(content, n - 1) + [Refer(BlockAt(content, n - 1))]
  }

  /** The manifest of a content. */
  function ManifestOf(content: Bytes): Manifest {
    Manifest(|content|, content, Referred(content, Count(|content|)))
  }

  // ---------------------------------------------------------------- what the parser accepts

  predicate Sized(m: Manifest) {
    |m.chunks| == Count(m.size) <= MAX_CHUNKS &&
    forall i :: 0 <= i < |m.chunks| && m.chunks[i].Some? ==> m.chunks[i].value.size == BlockSize(m.size, i)
  }

  /** One digest, one size. */
  predicate Consistent(m: Manifest) {
    forall i, j :: 0 <= i < |m.chunks| && 0 <= j < |m.chunks| && m.chunks[i].Some? && m.chunks[j].Some? ==>
      m.chunks[i].value.digest == m.chunks[j].value.digest ==> m.chunks[i].value.size == m.chunks[j].value.size
  }

  method Parse(m: Manifest) returns (ok: bool)
    ensures ok <==> Sized(m) && Consistent(m)
  {
    if |m.chunks| > MAX_CHUNKS || |m.chunks| != Count(m.size) { return false; }
    var sizes: map<Bytes, nat> := map[];
    for i := 0 to |m.chunks|
      invariant forall j :: 0 <= j < i && m.chunks[j].Some? ==>
        && m.chunks[j].value.size == BlockSize(m.size, j)
        && m.chunks[j].value.digest in sizes && sizes[m.chunks[j].value.digest] == m.chunks[j].value.size
      invariant forall d :: d in sizes ==>
        exists j :: 0 <= j < i && m.chunks[j].Some? && m.chunks[j].value == Reference(d, sizes[d])
    {
      if m.chunks[i].None? { continue; }
      var reference := m.chunks[i].value;
      if reference.digest in sizes && sizes[reference.digest] != reference.size {
        var j :| 0 <= j < i && m.chunks[j].Some? &&
          m.chunks[j].value == Reference(reference.digest, sizes[reference.digest]);
        assert !Consistent(m);
        return false;
      }
      ghost var before := sizes;
      sizes := sizes[reference.digest := reference.size];
      if reference.size != BlockSize(m.size, i) { return false; }
      assert forall d :: d in sizes && d != reference.digest ==> d in before;
      assert m.chunks[i].value == Reference(reference.digest, sizes[reference.digest]);
    }
    ok := true;
  }

  // ---------------------------------------------------------------- the chunker

  function Join(pieces: seq<Bytes>): Bytes {
    if pieces == [] then [] else Join(pieces[..|pieces| - 1]) + pieces[|pieces| - 1]
  }

  lemma {:induction false} AppendSlice(a: Bytes, piece: Bytes, i: nat, j: nat)
    requires i <= j <= |piece|
    ensures a + piece[..i] + piece[i..j] == a + piece[..j]
  {
    assert piece[..i] + piece[i..j] == piece[..j];
  }

  lemma {:induction false} ReferredPrefix(a: Bytes, b: Bytes, n: nat)
    requires n * CHUNK <= |a|
    ensures n <= Count(|a|) && n <= Count(|a + b|) && Referred(a + b, n) == Referred(a, n)
    decreases n
  {
    if n > 0 {
      ReferredPrefix(a, b, n - 1);
      BlockAtPrefix(a, b, n - 1);
    }
  }

  lemma {:induction false} BlockAtPrefix(a: Bytes, b: Bytes, i: nat)
    requires (i + 1) * CHUNK <= |a|
    ensures i < Count(|a|) && i < Count(|a + b|) && BlockAt(a + b, i) == BlockAt(a, i)
  {
    assert BlockSize(|a|, i) == CHUNK == BlockSize(|a + b|, i);
  }

  /** Cuts what it is fed into blocks.  `seen` is everything that has reached the buffer. */
  class Chunker {
    const buffer: array<byte>
    var offset: nat
    var size: nat
    var chunks: seq<Option<Reference>>
    var hashed: Bytes   // what the running hash has been fed
    ghost var seen: Bytes

    ghost predicate Holding()
      reads this, buffer
    {
      && buffer.Length == CHUNK && offset <= CHUNK && |seen| == |chunks| * CHUNK + offset
      && |chunks| <= Count(|seen|) && chunks == Referred(seen, |chunks|)
      && buffer[..offset] == seen[|chunks| * CHUNK..]
    }

    ghost predicate Filled()
      reads this, buffer
    {
      Holding() && offset < CHUNK
    }

    constructor ()
      ensures Filled() && seen == hashed == [] && size == 0 && fresh(buffer)
    {
      buffer := new byte[CHUNK];
      offset, size, chunks, hashed, seen := 0, 0, [], [], [];
    }

    method Buffered(part: Bytes)
      requires Filled() && offset + |part| <= CHUNK
      modifies this`offset, this`seen, buffer
      ensures Holding() && seen == old(seen) + part && offset == old(offset) + |part|
    {
      ReferredPrefix(seen, part, |chunks|);
      CopyOnto(buffer, offset, part);
      offset := offset + |part|;
      seen := seen + part;
    }

    /** Puts the buffer away as one block. */
    method Flush()
      requires Holding() && offset > 0
      modifies this`offset, this`chunks
      ensures offset == 0 && |chunks| == old(|chunks|) + 1 == Count(|seen|)
      ensures chunks == Referred(seen, |chunks|)
    {
      assert BlockAt(seen, |chunks|) == buffer[..offset];
      chunks := chunks + [Refer(buffer[..offset])];
      offset := 0;
    }

    /** Takes as much of the input as fits the buffer, and puts a full buffer away. */
    method Take(part: Bytes)
      requires Filled() && offset + |part| <= CHUNK
      modifies this`offset, this`chunks, this`seen, buffer
      ensures Filled() && seen == old(seen) + part
    {
      Buffered(part);
      if offset == CHUNK { Flush(); }
    }

    method TakeFrom(piece: Bytes, cursor: nat) returns (next: nat)
      requires Filled() && cursor < |piece|
      modifies this`offset, this`chunks, this`seen, buffer
      ensures cursor < next <= |piece| && Filled() && seen == old(seen) + piece[cursor..next]
    {
      next := cursor + Least(|piece| - cursor, CHUNK - offset);
      Take(piece[cursor..next]);
    }

    /** Takes one piece of the input, of any length. */
    method Sink(piece: Bytes)
      requires Filled()
      modifies this, buffer
      ensures Filled() && seen == old(seen) + piece && size == old(size) + |piece| && hashed == old(hashed) + piece
    {
      size := size + |piece|;
      hashed := hashed + piece;
      ghost var before := seen;
      var cursor := 0;
      assert before + piece[..0] == before;
      while cursor < |piece|
        invariant 0 <= cursor <= |piece| && Filled()
        invariant seen == before + piece[..cursor] && size == old(size) + |piece| && hashed == old(hashed) + piece
        decreases |piece| - cursor
      {
        ghost var from := cursor;
        cursor := TakeFrom(piece, cursor);
        AppendSlice(before, piece, from, cursor);
      }
      assert piece[..cursor] == piece;
    }

    method Finish() returns (m: Manifest)
      requires Filled() && size == |seen| && hashed == seen
      modifies this
      ensures m == ManifestOf(seen) && seen == old(seen)
    {
      if offset > 0 { Flush(); }
      m := Manifest(size, hashed, chunks);
    }
  }

  /** Captures whatever is fed in, in pieces of any lengths: succeeds exactly if it fits the budget and the parser's
      limit and its length is what the reader reports. */
  method Capture(pieces: seq<Bytes>, bytesRead: nat, maxBytes: nat) returns (captured: Option<Manifest>)
    ensures captured.Some? <==>
      |Join(pieces)| <= maxBytes && |Join(pieces)| == bytesRead && Count(|Join(pieces)|) <= MAX_CHUNKS
    ensures captured.Some? ==> captured.value == ManifestOf(Join(pieces))
  {
    var chunker := new Chunker();
    var fits := Feed(chunker, pieces, maxBytes);
    if !fits { return None; }
    ghost var content := Join(pieces);
    var m := chunker.Finish();
    captured := Accept(m, content, bytesRead);
  }

  method Accept(m: Manifest, ghost content: Bytes, bytesRead: nat) returns (captured: Option<Manifest>)
    requires m == ManifestOf(content)
    ensures captured.Some? <==> |content| == bytesRead && Count(|content|) <= MAX_CHUNKS
    ensures captured.Some? ==> captured.value == m
  {
    ManifestParses(content);
    if m.size != bytesRead { return None; }
    var ok := Parse(m);
    captured := if ok then Some(m) else None;
  }

  method Feed(chunker: Chunker, pieces: seq<Bytes>, maxBytes: nat) returns (fits: bool)
    requires chunker.Filled() && chunker.seen == chunker.hashed == [] && chunker.size == 0
    modifies chunker, chunker.buffer
    ensures fits == (|Join(pieces)| <= maxBytes)
    ensures fits ==>
      chunker.Filled() && chunker.seen == chunker.hashed == Join(pieces) && chunker.size == |chunker.seen|
  {
    for k := 0 to |pieces|
      invariant chunker.Filled() && chunker.seen == chunker.hashed == Join(pieces[..k])
      invariant chunker.size == |chunker.seen| <= maxBytes
    {
      JoinNext(pieces, k);
      JoinGrows(pieces, k + 1);
      if chunker.size + |pieces[k]| > maxBytes { return false; }
      chunker.Sink(pieces[k]);
    }
    assert pieces[..|pieces|] == pieces;
    fits := true;
  }

  lemma {:induction false} JoinNext(pieces: seq<Bytes>, k: nat)
    requires k < |pieces|
    ensures Join(pieces[..k + 1]) == Join(pieces[..k]) + pieces[k]
  {
    assert pieces[..k + 1][..k] == pieces[..k];
  }

  lemma {:induction false} JoinGrows(pieces: seq<Bytes>, k: nat)
    requires k <= |pieces|
    ensures |Join(pieces[..k])| <= |Join(pieces)|
    decreases |pieces|
  {
    if k < |pieces| {
      JoinGrows(pieces[..|pieces| - 1], k);
      assert pieces[..|pieces| - 1][..k] == pieces[..k];
    } else {
      assert pieces[..k] == pieces;
    }
  }

  lemma {:induction false} ReferredAt(content: Bytes, n: nat, i: nat)
    requires i < n <= Count(|content|)
    ensures Referred(content, n)[i] == Refer(BlockAt(content, i))
    decreases n
  {
    if i < n - 1 { ReferredAt(content, n - 1, i); }
  }

  /** Captured manifests pass the parser, up to its limit on the number of blocks. */
  lemma {:induction false} ManifestParses(content: Bytes)
    ensures Sized(ManifestOf(content)) <==> Count(|content|) <= MAX_CHUNKS
    ensures Consistent(ManifestOf(content))
  {
    var m := ManifestOf(content);
    forall i | 0 <= i < |m.chunks|
      ensures m.chunks[i].Some? ==> m.chunks[i].value.size == BlockSize(m.size, i) == |m.chunks[i].value.digest|
    {
      ReferredAt(content, |m.chunks|, i);
    }
  }

  // ---------------------------------------------------------------- reading back

  /** Blocks verified against their digests. */
  predicate Genuine(m: Manifest) {
    Sized(m) && forall i :: 0 <= i < |m.chunks| && m.chunks[i].Some? ==>
      |m.chunks[i].value.digest| == m.chunks[i].value.size
  }

  function Block(m: Manifest, i: nat): (b: Bytes)
    requires Genuine(m) && i < |m.chunks|
    ensures |b| == BlockSize(m.size, i)
  {
    if m.chunks[i].None? then Zeros(BlockSize(m.size, i)) else m.chunks[i].value.digest
  }

  /** The content of the first `n` blocks. */
  function Contents(m: Manifest, n: nat): (b: Bytes)
    requires Genuine(m) && n <= |m.chunks|
    ensures |b| == Least(n * CHUNK, m.size)
  {
    if n == 0 then [] else Contents(m, n - 1) + Block(m, n - 1)
  }

  function Content(m: Manifest): (b: Bytes)
    requires Genuine(m)
    ensures |b| == m.size
  {
    Contents(m, |m.chunks|)
  }

  lemma {:induction false} BlockOfContents(m: Manifest, n: nat, i: nat)
    requires Genuine(m) && i < n <= |m.chunks|
    ensures Contents(m, n)[i * CHUNK..i * CHUNK + BlockSize(m.size, i)] == Block(m, i)
    decreases n
  {
    var shorter, last := Contents(m, n - 1), Block(m, n - 1);
    if i < n - 1 {
      BlockOfContents(m, n - 1, i);
      SliceOfPrefix(shorter, last, i * CHUNK, i * CHUNK + BlockSize(m.size, i));
    } else {
      assert |shorter| == i * CHUNK;
      EndSlice(shorter, last);
    }
  }

  lemma {:induction false} EndSlice(a: Bytes, b: Bytes)
    ensures (a + b)[|a|..|a| + |b|] == b
  {
    assert |(a + b)[|a|..|a| + |b|]| == |b|;
  }

  lemma {:induction false} SliceOfPrefix(a: Bytes, b: Bytes, i: nat, j: nat)
    requires i <= j <= |a|
    ensures (a + b)[i..j] == a[i..j]
  {
  }

  lemma {:induction false} ReferredBlocks(content: Bytes)
    requires Count(|content|) <= MAX_CHUNKS
    ensures Genuine(ManifestOf(content))
    ensures forall i :: 0 <= i < Count(|content|) ==> Block(ManifestOf(content), i) == BlockAt(content, i)
  {
    ManifestParses(content);
    var m := ManifestOf(content);
    forall i | 0 <= i < |m.chunks| ensures m.chunks[i] == Refer(BlockAt(content, i)) {
      ReferredAt(content, |m.chunks|, i);
    }
    forall i | 0 <= i < |m.chunks| ensures Block(m, i) == BlockAt(content, i) {
      ReferredBlock(m, content, i);
    }
  }

  lemma {:induction false} BlocksMakeContent(m: Manifest, content: Bytes, n: nat)
    requires Genuine(m) && m.size == |content| && n <= |m.chunks|
    requires forall i :: 0 <= i < |m.chunks| ==> Block(m, i) == BlockAt(content, i)
    ensures Contents(m, n) == content[..Least(n * CHUNK, |content|)]
    decreases n
  {
    if n > 0 {
      BlocksMakeContent(m, content, n - 1);
      PrefixGrows(content, n - 1);
      assert Block(m, n - 1) == BlockAt(content, n - 1);
    }
  }

  /** The manifest of a content stands for that content. */
  lemma {:induction false} ContentRoundTrip(content: Bytes)
    requires Count(|content|) <= MAX_CHUNKS
    ensures Genuine(ManifestOf(content)) && Content(ManifestOf(content)) == content
  {
    ReferredBlocks(content);
    var m := ManifestOf(content);
    BlocksMakeContent(m, content, |m.chunks|);
    WholePrefix(content);
  }

  lemma {:induction false} WholePrefix(content: Bytes)
    ensures content[..Least(Count(|content|) * CHUNK, |content|)] == content
  {
    assert Count(|content|) * CHUNK >= |content|;
  }

  lemma {:induction false} ReferredBlock(m: Manifest, content: Bytes, i: nat)
    requires Genuine(m) && m.size == |content| && i < |m.chunks| && m.chunks[i] == Refer(BlockAt(content, i))
    ensures Block(m, i) == BlockAt(content, i)
  {
  }

  lemma {:induction false} PrefixGrows(content: Bytes, i: nat)
    requires i < Count(|content|)
    ensures i * CHUNK <= |content|
    ensures content[..Least((i + 1) * CHUNK, |content|)] == content[..i * CHUNK] + BlockAt(content, i)
  {
    var end := i * CHUNK + BlockSize(|content|, i);
    assert end == Least((i + 1) * CHUNK, |content|);
    assert content[..end] == content[..i * CHUNK] + content[i * CHUNK..end];
  }

  method CopyOnto(result: array<byte>, at: nat, part: Bytes)
    requires at + |part| <= result.Length
    modifies result
    ensures result[..at + |part|] == old(result[..at]) + part
  {
    for k := 0 to |part|
      invariant result[..at] == old(result[..at]) && result[at..at + k] == part[..k]
    {
      result[at + k] := part[k];
    }
    assert result[..at + |part|] == result[..at] + result[at..at + |part|];
  }

  /** What one block has of the `room` bytes from `position` on. */
  function Piece(m: Manifest, position: nat, room: nat): (b: Bytes)
    requires Genuine(m) && position < m.size && room > 0
    ensures 0 < |b| <= room
  {
    Locate(m.size, position);
    var bytes, start := Block(m, position / CHUNK), position % CHUNK;
    bytes[start..start + Least(room, |bytes| - start)]
  }

  lemma {:induction false} PieceIsNext(m: Manifest, whole: Bytes, position: nat, room: nat)
    requires Genuine(m) && whole == Content(m) && position < m.size && room > 0
    ensures position + |Piece(m, position, room)| <= |whole|
    ensures whole[position..position + |Piece(m, position, room)|] == Piece(m, position, room)
  {
    Locate(m.size, position);
    var index, start := position / CHUNK, position % CHUNK;
    var block, n := Block(m, index), |Piece(m, position, room)|;
    assert Piece(m, position, room) == block[start..start + n];
    BlockOfContents(m, |m.chunks|, index);
    SliceIsPiece(whole, index * CHUNK, block, start, n);
  }

  lemma {:induction false} SliceIsPiece(whole: Bytes, at: nat, block: Bytes, start: nat, n: nat)
    requires at + |block| <= |whole| && whole[at..at + |block|] == block && start + n <= |block|
    ensures whole[at + start..at + start + n] == block[start..start + n]
  {
    SliceOfSlice(whole, at, at + |block|, start, start + n);
  }

  lemma {:induction false} PieceFollows(m: Manifest, whole: Bytes, offset: nat, copied: nat, length: nat)
    requires Genuine(m) && whole == Content(m) && copied < length && offset + length <= |whole|
    ensures var piece := Piece(m, offset + copied, length - copied);
      whole[offset..offset + copied] + piece == whole[offset..offset + copied + |piece|]
  {
    var at, piece := offset + copied, Piece(m, offset + copied, length - copied);
    assert at + |piece| <= |whole| && whole[at..at + |piece|] == piece by {
      PieceIsNext(m, whole, at, length - copied);
    }
    AdjacentSlices(whole, offset, at, at + |piece|);
  }

  /** Reads a range that lies in the content. */
  method ReadRange(m: Manifest, offset: nat, length: nat) returns (result: array<byte>)
    requires Genuine(m) && offset + length <= m.size
    ensures fresh(result) && result[..] == Content(m)[offset..offset + length]
  {
    result := new byte[length];
    ghost var whole := Content(m);
    var copied := 0;
    while copied < length
      invariant 0 <= copied <= length == result.Length
      invariant result[..copied] == whole[offset..offset + copied]
      decreases length - copied
    {
      var piece := Piece(m, offset + copied, length - copied);
      PieceFollows(m, whole, offset, copied, length);
      CopyOnto(result, copied, piece);
      copied := copied + |piece|;
    }
  }

  lemma {:induction false} AdjacentSlices(s: Bytes, i: nat, j: nat, k: nat)
    requires i <= j <= k <= |s|
    ensures s[i..j] + s[j..k] == s[i..k]
  {
  }

  /** The block that holds a position, and how far into it the position lies. */
  lemma {:induction false} Locate(size: nat, position: nat)
    requires position < size
    ensures position / CHUNK < Count(size) && position / CHUNK * CHUNK + position % CHUNK == position
    ensures position % CHUNK < BlockSize(size, position / CHUNK)
  {
  }

  lemma {:induction false} SliceOfSlice(s: Bytes, a: nat, b: nat, c: nat, d: nat)
    requires a <= b <= |s| && c <= d <= b - a
    ensures s[a..b][c..d] == s[a + c..a + d]
  {
    assert forall k :: 0 <= k < d - c ==> s[a..b][c..d][k] == s[a..b][c + k] == s[a + c + k];
  }

  /** A pool's read: any offset and any bound; what lies beyond the end is empty. */
  method Read(m: Manifest, maxBytes: Option<nat>, offset: nat, maxReadBytes: nat) returns (result: Option<array<byte>>)
    requires Genuine(m)
    ensures var from := Least(offset, m.size);
      var size := Least(m.size - from, if maxBytes.Some? then maxBytes.value else m.size);
      if size > maxReadBytes then result.None? else result.Some? && result.value[..] == Content(m)[from..from + size]
  {
    var available := if m.size >= offset then m.size - offset else 0;
    var size := Least(available, if maxBytes.Some? then maxBytes.value else m.size);
    if size > maxReadBytes { return None; }
    var read := ReadRange(m, if size == 0 then 0 else offset, size);
    result := Some(read);
  }

  /** From input to answer: what was captured is read back at any offset and with any bound, whatever pieces the input
      came in and whatever blocks it was kept in. */
  method ReadBack(pieces: seq<Bytes>, bytesRead: nat, maxBytes: nat, wanted: Option<nat>, offset: nat,
                  maxReadBytes: nat)
    returns (captured: bool, result: Option<array<byte>>)
    ensures captured <==>
      |Join(pieces)| <= maxBytes && |Join(pieces)| == bytesRead && Count(|Join(pieces)|) <= MAX_CHUNKS
    ensures captured ==>
      var whole := Join(pieces); var from := Least(offset, |whole|);
      var size := Least(|whole| - from, if wanted.Some? then wanted.value else |whole|);
      if size > maxReadBytes then result.None? else result.Some? && result.value[..] == whole[from..from + size]
  {
    var manifest := Capture(pieces, bytesRead, maxBytes);
    if manifest.None? { return false, None; }
    ContentRoundTrip(Join(pieces));
    result := Read(manifest.value, wanted, offset, maxReadBytes);
    captured := true;
  }

  // ---------------------------------------------------------------- bringing a file up to date

  datatype Version = Plain(bytes: Bytes) | Chunked(manifest: Manifest) {
    predicate Usable() {
      Chunked? ==> Genuine(manifest)
    }

    function Whole(): (b: Bytes)
      requires Usable()
      ensures |b| == Length()
    {
      if Plain? then bytes else Content(manifest)
    }

    function Length(): nat {
      if Plain? then |bytes| else manifest.size
    }
  }

  class File {
    var bytes: Bytes
    var stalled: bool   // a write made no progress

    constructor (bytes: Bytes)
      ensures this.bytes == bytes && !stalled
    {
      this.bytes := bytes;
      stalled := false;
    }

    method Truncate(n: nat)
      modifies this`bytes
      ensures bytes == Resized(old(bytes), n)
    {
      bytes := Resized(bytes, n);
    }

    /** Writes some of the bytes given, at least one unless it stalls. */
    method Write(b: Bytes, at: nat) returns (written: nat)
      requires at + |b| <= |bytes| && b != []
      modifies this
      ensures written <= |b| && bytes == Overwritten(old(bytes), at, b[..written])
      ensures written == 0 ==> stalled
      ensures written > 0 ==> stalled == old(stalled)
    {
      written :| 0 <= written <= |b|;
      bytes := Overwritten(bytes, at, b[..written]);
      if written == 0 { stalled := true; }
    }

    method WriteAll(b: Bytes, at: nat) returns (ok: bool)
      requires at + |b| <= |bytes|
      modifies this
      ensures ok ==> bytes == Overwritten(old(bytes), at, b) && stalled == old(stalled)
      ensures !ok ==> stalled
    {
      var written := 0;
      while written < |b|
        invariant 0 <= written <= |b| && bytes == Overwritten(old(bytes), at, b[..written]) && stalled == old(stalled)
        decreases |b| - written
      {
        var more := Write(b[written..], at + written);
        if more == 0 { return false; }
        OverwrittenTwice(old(bytes), at, b, written, more);
        written := written + more;
      }
      assert b[..written] == b;
      ok := true;
    }
  }

  function Resized(b: Bytes, n: nat): (r: Bytes)
    ensures |r| == n
  {
    if n <= |b| then b[..n] else b + Zeros(n - |b|)
  }

  function Overwritten(b: Bytes, at: nat, part: Bytes): (r: Bytes)
    requires at + |part| <= |b|
    ensures |r| == |b|
  {
    b[..at] + part + b[at + |part|..]
  }

  lemma {:induction false} OverwrittenTwice(b: Bytes, at: nat, part: Bytes, i: nat, n: nat)
    requires at + |part| <= |b| && i + n <= |part|
    ensures Overwritten(Overwritten(b, at, part[..i]), at + i, part[i..][..n]) == Overwritten(b, at, part[..i + n])
  {
    assert part[..i + n] == part[..i] + part[i..][..n];
  }

  /** What the file holds before the blocks are written: the old content, or nothing, with zeros up to
      the new length. */
  function Base(before: Option<Version>, length: nat): (b: Bytes)
    requires before.Some? ==> before.value.Usable()
    ensures |b| >= length
  {
    if before.None? then Zeros(length)
    else if before.value.Length() < length then Resized(before.value.Whole(), length)
    else before.value.Whole()
  }

  /** Blocks that need not be written. */
  predicate Skips(after: Version, before: Option<Version>, index: nat)
    requires after.Usable() && index < Count(after.Length())
  {
    after.Chunked? &&
    var none := after.manifest.chunks[index].None?;
    var end := index * CHUNK + BlockSize(after.Length(), index);
    || (&& before.Some? && before.value.Chunked? && before.value.manifest.size >= end &&
       index < |before.value.manifest.chunks|
        && SameDigest(after.manifest.chunks[index], before.value.manifest.chunks[index]))
    || (before.None? && none)
    || (before.Some? && index * CHUNK >= before.value.Length() && none)
  }

  predicate SameDigest(a: Option<Reference>, b: Option<Reference>) {
    if a.None? || b.None? then a.None? && b.None? else a.value.digest == b.value.digest
  }

  /** A block with the same digest in the old version holds the same bytes, even if it was longer there. */
  lemma {:induction false} SameBlock(m: Manifest, p: Manifest, index: nat)
    requires Genuine(m) && Genuine(p) && index < |m.chunks| && index < |p.chunks|
    requires index * CHUNK + BlockSize(m.size, index) <= p.size && SameDigest(m.chunks[index], p.chunks[index])
    ensures index * CHUNK + BlockSize(m.size, index) <= m.size
    ensures var start, end := index * CHUNK, index * CHUNK + BlockSize(m.size, index);
      Content(p)[start..end] == Content(m)[start..end]
  {
    BlockOfContents(m, |m.chunks|, index);
    BlockPrefix(p, index, BlockSize(m.size, index));
    SameBytes(m, p, index);
  }

  lemma {:induction false} BlockPrefix(p: Manifest, index: nat, size: nat)
    requires Genuine(p) && index < |p.chunks| && size <= BlockSize(p.size, index)
    ensures index * CHUNK + size <= p.size
    ensures Content(p)[index * CHUNK..index * CHUNK + size] == Block(p, index)[..size]
  {
    var start := index * CHUNK;
    BlockOfContents(p, |p.chunks|, index);
    SliceOfSlice(Content(p), start, start + BlockSize(p.size, index), 0, size);
  }

  lemma {:induction false} SameBytes(m: Manifest, p: Manifest, index: nat)
    requires Genuine(m) && Genuine(p) && index < |m.chunks| && index < |p.chunks|
    requires BlockSize(m.size, index) <= BlockSize(p.size, index) && SameDigest(m.chunks[index], p.chunks[index])
    ensures Block(m, index) == Block(p, index)[..BlockSize(m.size, index)]
  {
  }

  lemma {:induction false} ZeroBlock(m: Manifest, index: nat)
    requires Genuine(m) && index < |m.chunks| && m.chunks[index].None?
    ensures index * CHUNK + BlockSize(m.size, index) <= m.size
    ensures Content(m)[index * CHUNK..index * CHUNK + BlockSize(m.size, index)] == Zeros(BlockSize(m.size, index))
  {
    BlockOfContents(m, |m.chunks|, index);
  }

  lemma {:induction false} ZerosSlice(n: nat, i: nat, j: nat)
    requires i <= j <= n
    ensures Zeros(n)[i..j] == Zeros(j - i)
  {
  }

  /** Beyond its old end a file is extended with zeros. */
  lemma {:induction false} ResizedTail(b: Bytes, n: nat, i: nat, j: nat)
    requires |b| <= i <= j <= n
    ensures Resized(b, n)[i..j] == Zeros(j - i)
  {
  }

  /** What is skipped is already there. */
  lemma {:induction false} SkippedIsThere(after: Version, before: Option<Version>, index: nat)
    requires after.Usable() && (before.Some? ==> before.value.Usable())
    requires index < Count(after.Length()) && Skips(after, before, index)
    ensures index * CHUNK + BlockSize(after.Length(), index) <= after.Length()
    ensures var start, end := index * CHUNK, index * CHUNK + BlockSize(after.Length(), index);
      Base(before, after.Length())[start..end] == after.Whole()[start..end]
  {
    var m := after.manifest;
    var start, end := index * CHUNK, index * CHUNK + BlockSize(m.size, index);
    if before.None? {
      ZeroBlock(m, index);
      ZerosSlice(m.size, start, end);
    } else if start >= before.value.Length() && m.chunks[index].None? {
      ZeroBlock(m, index);
      ResizedTail(before.value.Whole(), m.size, start, end);
    } else {
      SameBlock(m, before.value.manifest, index);
      ResizedKeeps(before.value.Whole(), m.size, start, end);
    }
  }

  lemma {:induction false} ResizedKeeps(b: Bytes, n: nat, i: nat, j: nat)
    requires i <= j <= |b| && j <= n
    ensures Resized(b, n)[i..j] == b[i..j]
  {
  }

  method ReadContent(version: Version, offset: nat, length: nat) returns (b: Bytes)
    requires version.Usable() && offset + length <= version.Length()
    ensures b == version.Whole()[offset..offset + length]
  {
    if version.Plain? { return version.bytes[offset..offset + length]; }
    var read := ReadRange(version.manifest, offset, length);
    b := read[..];
  }

  /** Half written: the first `n` bytes are the new version's, the rest is as it was. */
  predicate Partly(b: Bytes, base: Bytes, whole: Bytes, n: nat) {
    n <= |whole| <= |base| == |b| && b[..n] == whole[..n] && b[n..] == base[n..]
  }

  lemma {:induction false} OneMoreBlock(b: Bytes, base: Bytes, whole: Bytes, n: nat, next: nat)
    requires Partly(b, base, whole, n) && n <= next <= |whole|
    ensures Partly(Overwritten(b, n, whole[n..next]), base, whole, next)
    ensures base[n..next] == whole[n..next] ==> Partly(b, base, whole, next)
  {
    var c := Overwritten(b, n, whole[n..next]);
    assert c[..next] == whole[..n] + whole[n..next] == whole[..next];
    assert c[next..] == b[n..][next - n..] == base[next..];
    assert b[..next] == b[..n] + b[n..][..next - n];
    assert b[n..][..next - n] == base[n..next];
    assert b[next..] == base[next..];
  }

  lemma {:induction false} BlockEnds(length: nat, index: nat)
    requires index * CHUNK < length
    ensures index < Count(length) && BlockSize(length, index) == Least(CHUNK, length - index * CHUNK)
    ensures index * CHUNK + BlockSize(length, index) == Least(index * CHUNK + CHUNK, length)
  {
  }

  /** Brings one block up to date. */
  method UpdateBlock(file: File, after: Version, before: Option<Version>, index: nat, offset: nat, ghost base: Bytes)
    returns (ok: bool, written: bool)
    requires after.Usable() && (before.Some? ==> before.value.Usable()) && base == Base(before, after.Length())
    requires offset == index * CHUNK < after.Length() && Partly(file.bytes, base, after.Whole(), offset)
    modifies file
    ensures ok ==> Partly(file.bytes, base, after.Whole(), Least(offset + CHUNK, after.Length()))
    ensures !ok ==> file.stalled
    ensures !written && ok ==> file.bytes == old(file.bytes)
  {
    var size := Least(CHUNK, after.Length() - offset);
    BlockEnds(after.Length(), index);
    OneMoreBlock(file.bytes, base, after.Whole(), offset, offset + size);
    if Skips(after, before, index) {
      SkippedIsThere(after, before, index);
      return true, false;
    }
    var block := ReadContent(after, offset, size);
    ok := file.WriteAll(block, offset);
    written := true;
  }

  method UpdateBlocks(file: File, after: Version, before: Option<Version>, ghost base: Bytes)
    returns (ok: bool, written: bool)
    requires after.Usable() && (before.Some? ==> before.value.Usable()) && base == Base(before, after.Length())
    requires file.bytes == base
    modifies file
    ensures ok ==> Partly(file.bytes, base, after.Whole(), after.Length())
    ensures !ok ==> file.stalled
    ensures !written && ok ==> file.bytes == base
  {
    written := false;
    var offset, index := 0, 0;
    while offset < after.Length()
      invariant offset == index * CHUNK
      invariant Partly(file.bytes, base, after.Whole(), Least(offset, after.Length()))
      invariant !written ==> file.bytes == base
      decreases after.Length() - offset
    {
      var wrote;
      ok, wrote := UpdateBlock(file, after, before, index, offset, base);
      if !ok { return; }
      written := written || wrote;
      offset, index := offset + CHUNK, index + 1;
    }
    ok := true;
  }

  /** Turns a file that holds `before`, or nothing, into one that holds `after`, writing only blocks that may differ. */
  method WriteContent(file: File, after: Version, before: Option<Version>) returns (ok: bool)
    requires after.Usable() && (before.Some? ==> before.value.Usable())
    requires file.bytes == if before.Some? then before.value.Whole() else []
    modifies file
    ensures ok ==> file.bytes == after.Whole()
    ensures !ok ==> file.stalled
  {
    var length := after.Length();
    ghost var base := Base(before, length);
    var extended := before.None? || before.value.Length() < length;
    if extended { file.Truncate(length); }
    assert file.bytes == base;
    var written;
    ok, written := UpdateBlocks(file, after, before, base);
    if !ok { return; }
    assert file.bytes[..length] == after.Whole()[..length] == after.Whole();
    if !(extended || written) || (before.Some? && before.value.Length() > length) {
      file.Truncate(length);
    }
  }

  // ---------------------------------------------------------------- strings

  /** A string is a sequence of UTF-16 code units. */
  newtype unit = x: int | 0 <= x < 65536

  predicate High(u: unit) {
    0xd800 <= u <= 0xdbff
  }

  predicate Low(u: unit) {
    0xdc00 <= u <= 0xdfff
  }

  /** Section 3 of RFC 3629; a surrogate without its partner becomes the replacement character. */
  function EncodeUnit(u: unit): Bytes {
    var c := u as int;
    if c < 0x80 then [c as byte]
    else if c < 0x800 then [(0xc0 + c / 64) as byte, (0x80 + c % 64) as byte]
    else if High(u) || Low(u) then [0xef, 0xbf, 0xbd]
    else [(0xe0 + c / 4096) as byte, (0x80 + c / 64 % 64) as byte, (0x80 + c % 64) as byte]
  }

  function EncodePair(high: unit, low: unit): Bytes
    requires High(high) && Low(low)
  {
    var c := 0x10000 + (high as int - 0xd800) * 1024 + (low as int - 0xdc00);
    [(0xf0 + c / 262144) as byte, (0x80 + c / 4096 % 64) as byte, (0x80 + c / 64 % 64) as byte, (0x80 + c % 64) as byte]
  }

  predicate StartsPair(s: seq<unit>) {
    |s| > 1 && High(s[0]) && Low(s[1])
  }

  function Utf8(s: seq<unit>): Bytes {
    if s == [] then []
    else if StartsPair(s) then EncodePair(s[0], s[1]) + Utf8(s[2..])
    else EncodeUnit(s[0]) + Utf8(s[1..])
  }

  /** A cut between the two halves of a surrogate pair. */
  predicate Splits(a: seq<unit>, b: seq<unit>) {
    a != [] && b != [] && High(a[|a| - 1]) && Low(b[0])
  }

  lemma {:induction false} Grouped(a: Bytes, b: Bytes, c: Bytes)
    ensures a + (b + c) == (a + b) + c
  {
  }

  /** Encoding piece by piece is encoding the whole, unless a pair is split. */
  lemma {:induction false} Utf8Pieces(a: seq<unit>, b: seq<unit>)
    requires !Splits(a, b)
    ensures Utf8(a + b) == Utf8(a) + Utf8(b)
    decreases |a|
  {
    if a == [] {
      assert a + b == b;
    } else if StartsPair(a) {
      assert (a + b)[2..] == a[2..] + b && StartsPair(a + b);
      Utf8Pieces(a[2..], b);
      Grouped(EncodePair(a[0], a[1]), Utf8(a[2..]), Utf8(b));
    } else {
      assert (a + b)[1..] == a[1..] + b;
      assert !StartsPair(a + b);
      Utf8Pieces(a[1..], b);
      Grouped(EncodeUnit(a[0]), Utf8(a[1..]), Utf8(b));
    }
  }

  function CutEnd(s: seq<unit>, offset: nat): (end: nat)
    requires offset < |s|
    ensures offset < end <= |s| && !Splits(s[offset..end], s[end..])
  {
    var end := Least(|s|, offset + CHUNK);
    if end < |s| && High(s[end - 1]) then end - 1 else end
  }

  lemma {:induction false} OnePiece(s: seq<unit>, i: nat, j: nat, pieces: seq<Bytes>)
    requires i <= j <= |s| && !Splits(s[i..j], s[j..])
    ensures var block := Utf8(s[i..j]);
      && Join(pieces + [block]) == Join(pieces) + block
      && Join(pieces + [block]) + Utf8(s[j..]) == Join(pieces) + Utf8(s[i..])
  {
    var block := Utf8(s[i..j]);
    assert (pieces + [block])[..|pieces|] == pieces;
    assert s[i..] == s[i..j] + s[j..];
    Utf8Pieces(s[i..j], s[j..]);
  }

  /** Encodes a string in pieces of about a block each; together they are the encoding of the string. */
  method StringPieces(s: seq<unit>) returns (pieces: seq<Bytes>, bytesRead: nat)
    ensures Join(pieces) == Utf8(s) && bytesRead == |Utf8(s)|
  {
    pieces, bytesRead := [], 0;
    var offset := 0;
    assert s[0..] == s;
    while offset < |s|
      invariant 0 <= offset <= |s| && bytesRead == |Join(pieces)|
      invariant Join(pieces) + Utf8(s[offset..]) == Utf8(s)
      decreases |s| - offset
    {
      var end := CutEnd(s, offset);
      var block := Utf8(s[offset..end]);
      OnePiece(s, offset, end, pieces);
      pieces := pieces + [block];
      bytesRead := bytesRead + |block|;
      offset := end;
    }
  }

  /** Captured as text, read back as bytes: any range of a string's content is that range of its encoding. */
  method CaptureString(s: seq<unit>, maxBytes: nat) returns (captured: Option<Manifest>)
    ensures captured.Some? <==> |Utf8(s)| <= maxBytes && Count(|Utf8(s)|) <= MAX_CHUNKS
    ensures captured.Some? ==> Genuine(captured.value) && Content(captured.value) == Utf8(s)
  {
    var pieces, bytesRead := StringPieces(s);
    captured := Capture(pieces, bytesRead, maxBytes);
    if captured.Some? { ContentRoundTrip(Utf8(s)); }
  }
}
