/** Chunked file transfers: how the client cuts a file into frames, and how it puts the frames
    of many reads, arriving interleaved, back together under a byte budget. */
module FileTransfer {
  import opened Options

  newtype byte = x: int | 0 <= x < 256

  datatype PendingRead = PendingRead(cwd: string, path: string, maxBytes: Option<nat>)

  datatype Metadata = Metadata(mime: string, size: nat, encoding: string, modifiedAt: string, revision: Option<string>)

  datatype Frame =
    | FileBegin(requestId: string, metadata: Metadata)
    | FileChunk(requestId: string, payload: seq<byte>)
    | FileEnd(requestId: string)

  datatype Transfer = Transfer(request: PendingRead, metadata: Metadata, chunks: seq<seq<byte>>)

  datatype Kind = Image | Plain | Binary

  datatype FileRead = FileRead(bytes: seq<byte>, mime: string, size: nat, path: string, kind: Kind,
                               modifiedAt: string, revision: Option<string>)

  /** What handling a frame makes visible: the response it synthesises, or the exception of
      copying more bytes than the file was announced to have. */
  datatype Outcome =
    | Answered(requestId: string, cwd: string, path: string, error: Option<string>)
    | Overran(requestId: string)

  const TOO_LARGE := "File is too large to display"

  // ----- Chunks and bytes -----

  function Flatten(chunks: seq<seq<byte>>): seq<byte>
  {
    if chunks == [] then [] else Flatten(chunks[..|chunks| - 1]) + chunks[|chunks| - 1]
  }

  function Zeros(n: nat): seq<byte> {
    seq(n, _ => 0)
  }

  /** The file of `size` bytes that starts with the chunks, if they fit in it. */
  function Assembled(chunks: seq<seq<byte>>, size: nat): Option<seq<byte>> {
    var all := Flatten(chunks);
    if |all| <= size then Some(all + Zeros(size - |all|)) else None
  }

  lemma {:induction false} FlattenIsMonotone(chunks: seq<seq<byte>>, i: nat)
    requires i <= |chunks|
    ensures |Flatten(chunks[..i])| <= |Flatten(chunks)|
    decreases |chunks|
  {
    if i < |chunks| {
      FlattenIsMonotone(chunks[..|chunks| - 1], i);
      assert chunks[..|chunks| - 1][..i] == chunks[..i];
    } else {
      assert chunks[..i] == chunks;
    }
  }

  method ConcatByteChunks(chunks: seq<seq<byte>>, size: nat) returns (r: Option<seq<byte>>)
    ensures r == Assembled(chunks, size)
  {
    var bytes := new byte[size](_ => 0);
    var offset := 0;
    for i := 0 to |chunks|
      invariant offset == |Flatten(chunks[..i])| <= size
      invariant bytes[..] == Flatten(chunks[..i]) + Zeros(size - offset)
    {
      var chunk := chunks[i];
      assert chunks[..i + 1][..i] == chunks[..i];
      assert Flatten(chunks[..i + 1]) == Flatten(chunks[..i]) + chunk;
      if offset + |chunk| > size {
        FlattenIsMonotone(chunks, i + 1);
        return None;
      }
      CopyAt(bytes, chunk, offset);
      offset := offset + |chunk|;
    }
    assert chunks[..|chunks|] == chunks;
    return Some(bytes[..]);
  }

  /** `bytes.set(chunk, offset)` where the chunk fits. */
  method CopyAt(bytes: array<byte>, chunk: seq<byte>, offset: nat)
    requires offset + |chunk| <= bytes.Length
    modifies bytes
    ensures bytes[..] == old(bytes[..offset]) + chunk + old(bytes[offset + |chunk|..])
  {
    for j := 0 to |chunk|
      invariant bytes[..offset] == old(bytes[..offset])
      invariant forall k | 0 <= k < j :: bytes[offset + k] == chunk[k]
      invariant bytes[offset + |chunk|..] == old(bytes[offset + |chunk|..])
    {
      bytes[offset + j] := chunk[j];
    }
    assert bytes[offset..offset + |chunk|] == chunk;
    assert bytes[..] == bytes[..offset] + bytes[offset..offset + |chunk|] + bytes[offset + |chunk|..];
  }

  /** The pieces of `bytes` of length `chunkSize`, the last one possibly shorter. */
  function Pieces(bytes: seq<byte>, chunkSize: nat): seq<seq<byte>>
    requires chunkSize > 0
    decreases |bytes|
  {
    if bytes == [] then []
    else
      var rest := (|bytes| - 1) / chunkSize * chunkSize;
      Pieces(bytes[..rest], chunkSize) + [bytes[rest..]]
  }

  lemma LastStart(n: nat, offset: nat, chunkSize: nat)
    requires chunkSize > 0 && offset % chunkSize == 0 && offset < n <= offset + chunkSize
    ensures (n - 1) / chunkSize * chunkSize == offset
  {
    var q := offset / chunkSize;
    assert offset == q * chunkSize;
    assert (n - 1) == q * chunkSize + (n - 1 - offset);
    DivIs(n - 1, q, n - 1 - offset, chunkSize);
  }

  lemma DivIs(a: nat, q: nat, r: nat, d: nat)
    requires d > 0 && a == q * d + r && r < d
    ensures a / d == q
  {
    var x := a / d;
    assert a == x * d + a % d;
    MulGrows(x + 1, q, d);
    MulGrows(q + 1, x, d);
  }

  lemma MulGrows(a: nat, b: nat, d: nat)
    ensures a <= b ==> a * d <= b * d
  {
  }

  lemma NextMultiple(offset: nat, d: nat)
    requires d > 0 && offset % d == 0
    ensures (offset + d) % d == 0
  {
    var q := offset / d;
    assert offset + d == (q + 1) * d;
    DivIs(offset + d, q + 1, 0, d);
  }

  lemma {:induction false} PiecesRejoin(bytes: seq<byte>, chunkSize: nat)
    requires chunkSize > 0
    ensures Flatten(Pieces(bytes, chunkSize)) == bytes
    decreases |bytes|
  {
    if bytes != [] {
      var rest := (|bytes| - 1) / chunkSize * chunkSize;
      PiecesRejoin(bytes[..rest], chunkSize);
      var pieces := Pieces(bytes, chunkSize);
      assert pieces[..|pieces| - 1] == Pieces(bytes[..rest], chunkSize);
    }
  }

  /** Bytes keep their order: byte `k` of a chunk follows all the bytes of the chunks before it. */
  lemma {:induction false} FlattenAt(chunks: seq<seq<byte>>, i: nat, k: nat)
    requires i < |chunks| && k < |chunks[i]|
    ensures |Flatten(chunks[..i])| + k < |Flatten(chunks)|
    ensures Flatten(chunks)[|Flatten(chunks[..i])| + k] == chunks[i][k]
    decreases |chunks|
  {
    var n := |chunks| - 1;
    if i < n {
      FlattenAt(chunks[..n], i, k);
      assert chunks[..n][..i] == chunks[..i];
    }
  }

  lemma {:induction false} PieceOf(bytes: seq<byte>, chunkSize: nat, last: nat, i: nat)
    requires chunkSize > 0 && last * chunkSize < |bytes| <= (last + 1) * chunkSize && i <= last
    ensures |Pieces(bytes, chunkSize)| == last + 1
    ensures i * chunkSize <= |bytes|
    ensures Pieces(bytes, chunkSize)[i]
            == if i < last then (MulGrows(i + 1, last, chunkSize); bytes[i * chunkSize..(i + 1) * chunkSize])
               else bytes[i * chunkSize..]
    decreases last
  {
    var start := last * chunkSize;
    DivIs(|bytes| - 1, last, |bytes| - 1 - start, chunkSize);
    assert Pieces(bytes, chunkSize) == Pieces(bytes[..start], chunkSize) + [bytes[start..]];
    if last > 0 {
      MulGrows(i + 1, last, chunkSize);
      MulGrows(last - 1, last, chunkSize);
      assert (last - 1) * chunkSize == start - chunkSize;
      PieceOf(bytes[..start], chunkSize, last - 1, if i < last then i else last - 1);
    }
  }

  /** Piece `i` is the bytes from `i * chunkSize` on, `chunkSize` of them but for the last piece, which
      has what is left, and at least one. */
  lemma PieceIs(bytes: seq<byte>, chunkSize: nat, i: nat)
    requires chunkSize > 0 && i < |Pieces(bytes, chunkSize)|
    ensures i * chunkSize < |bytes|
    ensures var end := (i + 1) * chunkSize;
            Pieces(bytes, chunkSize)[i] == bytes[i * chunkSize..if end < |bytes| then end else |bytes|]
  {
    var last := (|bytes| - 1) / chunkSize;
    LastPiece(|bytes|, chunkSize);
    PieceOf(bytes, chunkSize, last, last);
    hide Pieces;
    PieceOf(bytes, chunkSize, last, i);
    if i < last {
      MulGrows(i + 1, last, chunkSize);
      assert i * chunkSize < (i + 1) * chunkSize by { NextStart(i, chunkSize); }
    } else {
      assert bytes[last * chunkSize..] == bytes[last * chunkSize..|bytes|];
    }
  }

  lemma NextStart(i: nat, chunkSize: nat)
    ensures (i + 1) * chunkSize == i * chunkSize + chunkSize
  {
  }

  lemma LastPiece(n: nat, chunkSize: nat)
    requires chunkSize > 0 && n > 0
    ensures var last := (n - 1) / chunkSize; last * chunkSize < n <= (last + 1) * chunkSize
  {
    var last := (n - 1) / chunkSize;
    assert n - 1 == last * chunkSize + (n - 1) % chunkSize;
  }

  function ChunkFrames(requestId: string, chunks: seq<seq<byte>>): seq<Frame> {
    seq(|chunks|, i requires 0 <= i < |chunks| => FileChunk(requestId, chunks[i]))
  }

  /** The frames that carry a file. */
  function Carry(requestId: string, metadata: Metadata, chunks: seq<seq<byte>>): seq<Frame> {
    [FileBegin(requestId, metadata)] + ChunkFrames(requestId, chunks) + [FileEnd(requestId)]
  }

  /** The loop of `uploadFile`. */
  method UploadFrames(requestId: string, metadata: Metadata, bytes: seq<byte>, chunkSize: nat)
    returns (frames: seq<Frame>)
    requires chunkSize > 0
    ensures frames == Carry(requestId, metadata, Pieces(bytes, chunkSize))
  {
    frames := [FileBegin(requestId, metadata)];
    var offset := 0;
    ghost var cut: seq<seq<byte>> := [];
    while offset < |bytes|
      invariant offset < |bytes| ==> offset % chunkSize == 0
      invariant cut == Pieces(bytes[..if offset < |bytes| then offset else |bytes|], chunkSize)
      invariant frames == [FileBegin(requestId, metadata)] + ChunkFrames(requestId, cut)
    {
      var end := if offset + chunkSize < |bytes| then offset + chunkSize else |bytes|;
      frames := frames + [FileChunk(requestId, bytes[offset..end])];
      LastStart(end, offset, chunkSize);
      NextMultiple(offset, chunkSize);
      assert bytes[..end][..offset] == bytes[..offset];
      assert bytes[..end][offset..] == bytes[offset..end];
      cut := cut + [bytes[offset..end]];
      offset := offset + chunkSize;
    }
    assert bytes[..|bytes|] == bytes;
    frames := frames + [FileEnd(requestId)];
  }

  // ----- What one read sees -----

  predicate OverBudget(t: Transfer) {
    t.request.maxBytes.Some? && t.request.maxBytes.value > 0 && t.metadata.size > t.request.maxBytes.value
  }

  predicate StartsWith(s: string, prefix: string) {
    |prefix| <= |s| && s[..|prefix|] == prefix
  }

  function BinaryFileKind(mime: string, encoding: string): Kind {
    if StartsWith(mime, "image/") then Image
    else if encoding == "utf-8" || StartsWith(mime, "text/") || mime == "application/json" then Plain
    else Binary
  }

  function Received(t: Transfer, bytes: seq<byte>): FileRead {
    FileRead(bytes, t.metadata.mime, t.metadata.size, t.request.path,
             BinaryFileKind(t.metadata.mime, t.metadata.encoding), t.metadata.modifiedAt, t.metadata.revision)
  }

  function Answer(t: Transfer, requestId: string, error: Option<string>): Outcome {
    Answered(requestId, t.request.cwd, t.request.path, error)
  }

  /** The books of a single request id. */
  datatype View = View(pending: Option<PendingRead>, active: Option<Transfer>, completed: Option<FileRead>,
                       outcomes: seq<Outcome>)

  /** What a frame of the read's own id does to it. */
  function See(v: View, f: Frame): View {
    match f
    case FileBegin(_, metadata) =>
      if v.pending.None? then v else v.(active := Some(Transfer(v.pending.value, metadata, [])))
    case FileChunk(_, payload) =>
      if v.active.None? || OverBudget(v.active.value) then v
      else v.(active := Some(v.active.value.(chunks := v.active.value.chunks + [payload])))
    case FileEnd(requestId) =>
      if v.active.None? then v
      else
        var t := v.active.value;
        var bytes := Assembled(t.chunks, t.metadata.size);
        if OverBudget(t) then
          v.(active := None, outcomes := v.outcomes + [Answer(t, requestId, Some(TOO_LARGE))])
        else if bytes.None? then
          v.(outcomes := v.outcomes + [Overran(requestId)])
        else
          v.(active := None, completed := Some(Received(t, bytes.value)),
             outcomes := v.outcomes + [Answer(t, requestId, None)])
  }

  /** What happens to reads: one starts, a frame arrives, one finishes. */
  datatype Operation =
    | Start(id: string, request: PendingRead)
    | Arrive(frame: Frame)
    | Finish(id: string, failed: bool)

  function IdOf(op: Operation): string {
    if op.Arrive? then op.frame.requestId else op.id
  }

  /** What an operation on the read's own id does to it. A read that did not fail takes its result. */
  function SeeOperation(v: View, op: Operation): View {
    match op
    case Start(_, request) => v.(pending := Some(request))
    case Arrive(frame) => See(v, frame)
    case Finish(_, failed) => v.(pending := None, active := None, completed := if failed then v.completed else None)
  }

  function SeeAll(v: View, ops: seq<Operation>): View
  {
    if ops == [] then v else SeeOperation(SeeAll(v, ops[..|ops| - 1]), ops[|ops| - 1])
  }

  // ----- The books of all reads -----

  datatype Books = Books(pending: map<string, PendingRead>, active: map<string, Transfer>,
                         completed: map<string, FileRead>, outcomes: seq<Outcome>)

  function Lookup<V>(m: map<string, V>, key: string): Option<V> {
    if key in m then Some(m[key]) else None
  }

  function Handle(b: Books, f: Frame): Books {
    var id := f.requestId;
    if f.FileBegin? then
      if id !in b.pending then b else b.(active := b.active[id := Transfer(b.pending[id], f.metadata, [])])
    else if id !in b.active then b
    else
      var t := b.active[id];
      if f.FileChunk? then
        if OverBudget(t) then b else b.(active := b.active[id := t.(chunks := t.chunks + [f.payload])])
      else if OverBudget(t) then
        b.(active := b.active - {id}, outcomes := b.outcomes + [Answer(t, id, Some(TOO_LARGE))])
      else
        match Assembled(t.chunks, t.metadata.size)
        case None => b.(outcomes := b.outcomes + [Overran(id)])
        case Some(bytes) =>
          b.(active := b.active - {id}, completed := b.completed[id := Received(t, bytes)],
             outcomes := b.outcomes + [Answer(t, id, None)])
  }

  function Begin(b: Books, id: string, request: PendingRead): Books {
    b.(pending := b.pending[id := request])
  }

  /** The end of `readFile`: what it returns, if the exchange did not fail, and its clean-up. */
  function End(b: Books, id: string, failed: bool): (Books, Option<FileRead>) {
    var found := !failed && id in b.completed;
    (b.(pending := b.pending - {id}, active := b.active - {id},
        completed := if found then b.completed - {id} else b.completed),
     if found then Some(b.completed[id]) else None)
  }

  function Perform(b: Books, op: Operation): Books {
    match op
    case Start(id, request) => Begin(b, id, request)
    case Arrive(frame) => Handle(b, frame)
    case Finish(id, failed) => End(b, id, failed).0
  }

  function PerformAll(b: Books, ops: seq<Operation>): Books
  {
    if ops == [] then b else Perform(PerformAll(b, ops[..|ops| - 1]), ops[|ops| - 1])
  }

  function OutcomesOf(outcomes: seq<Outcome>, id: string): seq<Outcome>
  {
    if outcomes == [] then []
    else
      var last := outcomes[|outcomes| - 1];
      OutcomesOf(outcomes[..|outcomes| - 1], id) + (if last.requestId == id then [last] else [])
  }

  function ViewOf(b: Books, id: string): View {
    View(Lookup(b.pending, id), Lookup(b.active, id), Lookup(b.completed, id), OutcomesOf(b.outcomes, id))
  }

  /** The operations on one id, in order. */
  function Own(ops: seq<Operation>, id: string): seq<Operation>
  {
    if ops == [] then []
    else
      var last := ops[|ops| - 1];
      Own(ops[..|ops| - 1], id) + (if IdOf(last) == id then [last] else [])
  }

  lemma OutcomesSnoc(outcomes: seq<Outcome>, o: Outcome, id: string)
    ensures OutcomesOf(outcomes + [o], id) == OutcomesOf(outcomes, id) + (if o.requestId == id then [o] else [])
  {
    assert (outcomes + [o])[..|outcomes|] == outcomes;
  }

  lemma HandleIsLocal(b: Books, f: Frame, id: string)
    ensures ViewOf(Handle(b, f), id) == (if f.requestId == id then See(ViewOf(b, id), f) else ViewOf(b, id))
  {
    hide OutcomesOf, Assembled, OverBudget, Received, BinaryFileKind;
    if f.FileEnd? && f.requestId in b.active {
      var t := b.active[f.requestId];
      OutcomesSnoc(b.outcomes, Answer(t, f.requestId, Some(TOO_LARGE)), id);
      OutcomesSnoc(b.outcomes, Overran(f.requestId), id);
      OutcomesSnoc(b.outcomes, Answer(t, f.requestId, None), id);
    }
  }

  lemma PerformIsLocal(b: Books, op: Operation, id: string)
    ensures ViewOf(Perform(b, op), id) == (if IdOf(op) == id then SeeOperation(ViewOf(b, id), op) else ViewOf(b, id))
  {
    if op.Arrive? {
      HandleIsLocal(b, op.frame, id);
    }
    hide Handle, See, OutcomesOf;
  }

  /** However starts, frames and finishes of other reads are interleaved, a read sees exactly its own. */
  lemma {:induction false} ReadsDoNotInterfere(b: Books, ops: seq<Operation>, id: string)
    ensures ViewOf(PerformAll(b, ops), id) == SeeAll(ViewOf(b, id), Own(ops, id))
  {
    if ops != [] {
      var n := |ops| - 1;
      ReadsDoNotInterfere(b, ops[..n], id);
      PerformIsLocal(PerformAll(b, ops[..n]), ops[n], id);
      var own := Own(ops, id);
      if IdOf(ops[n]) == id {
        assert own[..|own| - 1] == Own(ops[..n], id);
      } else {
        assert own == Own(ops[..n], id);
      }
      hide Perform, ViewOf, SeeOperation;
    }
  }

  // ----- A whole transfer -----

  function Begun(v: View, metadata: Metadata): Transfer
    requires v.pending.Some?
  {
    Transfer(v.pending.value, metadata, [])
  }

  function Arrivals(frames: seq<Frame>): seq<Operation> {
    seq(|frames|, i requires 0 <= i < |frames| => Arrive(frames[i]))
  }

  /** The begin frame and any number of chunks. */
  function Opening(id: string, metadata: Metadata, chunks: seq<seq<byte>>): seq<Operation> {
    Arrivals([FileBegin(id, metadata)] + ChunkFrames(id, chunks))
  }

  /** They are all kept, or none is. */
  lemma {:induction false} ChunksAreKept(v: View, id: string, metadata: Metadata, chunks: seq<seq<byte>>)
    requires v.pending.Some?
    ensures var t := Begun(v, metadata);
            SeeAll(v, Opening(id, metadata, chunks))
            == v.(active := Some(if OverBudget(t) then t else t.(chunks := chunks)))
  {
    var ops := Opening(id, metadata, chunks);
    var n := |ops| - 1;
    if chunks == [] {
      assert ops[..n] == [];
      assert SeeAll(v, ops[..n]) == v;
    } else {
      ChunksAreKept(v, id, metadata, chunks[..|chunks| - 1]);
      assert ops[..n] == Opening(id, metadata, chunks[..|chunks| - 1]);
      assert chunks[..|chunks| - 1] + [chunks[|chunks| - 1]] == chunks;
    }
  }

  lemma CarryEnds(v: View, id: string, metadata: Metadata, chunks: seq<seq<byte>>)
    ensures SeeAll(v, Arrivals(Carry(id, metadata, chunks)))
            == See(SeeAll(v, Opening(id, metadata, chunks)), FileEnd(id))
  {
    var ops := Arrivals(Carry(id, metadata, chunks));
    assert ops[..|ops| - 1] == Opening(id, metadata, chunks);
  }

  lemma CarryCompletesIffFits(v: View, id: string, metadata: Metadata, chunks: seq<seq<byte>>)
    requires v.pending.Some? && !OverBudget(Transfer(v.pending.value, metadata, []))
    ensures var t := Transfer(v.pending.value, metadata, chunks);
            SeeAll(v, Arrivals(Carry(id, metadata, chunks))) ==
              if |Flatten(chunks)| <= metadata.size then
                var bytes := Flatten(chunks) + seq(metadata.size - |Flatten(chunks)|, _ => 0);
                v.(active := None, completed := Some(Received(t, bytes)),
                   outcomes := v.outcomes + [Answer(t, id, None)])
              else
                v.(active := Some(t), outcomes := v.outcomes + [Overran(id)])
  {
    hide SeeAll, Carry, Flatten, Arrivals, Opening, Received;
    ChunksAreKept(v, id, metadata, chunks);
    CarryEnds(v, id, metadata, chunks);
    if |Flatten(chunks)| <= metadata.size {
      assert Zeros(metadata.size - |Flatten(chunks)|) == seq(metadata.size - |Flatten(chunks)|, _ => 0);
    }
  }

  /** Without a byte budget, or within it, a pending read completes if and only if its chunks fit the
      announced size, and then with the chunks' bytes, padded with zeros; otherwise it stays active. */
  lemma CompletesIffChunksFit(b: Books, ops: seq<Operation>, id: string, metadata: Metadata, chunks: seq<seq<byte>>)
    requires id in b.pending && Own(ops, id) == Arrivals(Carry(id, metadata, chunks))
    requires var budget := b.pending[id].maxBytes;
             budget.None? || budget.value == 0 || metadata.size <= budget.value
    ensures var after := PerformAll(b, ops);
            var t := Transfer(b.pending[id], metadata, chunks);
            if |Flatten(chunks)| <= metadata.size then
              && id !in after.active && id in after.completed
              && after.completed[id] == Received(t, Flatten(chunks) + seq(metadata.size - |Flatten(chunks)|, _ => 0))
              && OutcomesOf(after.outcomes, id)
                 == OutcomesOf(b.outcomes, id) + [Answered(id, t.request.cwd, t.request.path, None)]
            else
              && id in after.active && after.active[id] == t
              && Lookup(after.completed, id) == Lookup(b.completed, id)
              && OutcomesOf(after.outcomes, id) == OutcomesOf(b.outcomes, id) + [Overran(id)]
  {
    hide PerformAll, SeeAll, Carry, OutcomesOf, Own, Flatten, Arrivals, Received;
    ReadsDoNotInterfere(b, ops, id);
    CarryCompletesIffFits(ViewOf(b, id), id, metadata, chunks);
  }

  /** The round trip: whatever is interleaved with it, an uploaded file arrives byte for byte. */
  lemma UploadRoundTrips(b: Books, ops: seq<Operation>, id: string, metadata: Metadata,
                         bytes: seq<byte>, chunkSize: nat)
    requires chunkSize > 0 && metadata.size == |bytes|
    requires id in b.pending && Own(ops, id) == Arrivals(Carry(id, metadata, Pieces(bytes, chunkSize)))
    requires var budget := b.pending[id].maxBytes;
             budget.None? || budget.value == 0 || |bytes| <= budget.value
    ensures var after := PerformAll(b, ops);
            && id in after.completed
            && after.completed[id] == Received(Transfer(b.pending[id], metadata, []), bytes)
            && id !in after.active
            && OutcomesOf(after.outcomes, id)
               == OutcomesOf(b.outcomes, id) + [Answered(id, b.pending[id].cwd, b.pending[id].path, None)]
  {
    PiecesRejoin(bytes, chunkSize);
    CompletesIffChunksFit(b, ops, id, metadata, Pieces(bytes, chunkSize));
    assert bytes + seq(0, _ => 0) == bytes;
    hide PerformAll, Carry, OutcomesOf, Own, Flatten, Pieces, Arrivals;
  }

  /** A read of a file larger than its byte budget ends too large and completes nothing. */
  lemma OverBudgetEndsTooLarge(b: Books, ops: seq<Operation>, id: string, metadata: Metadata, chunks: seq<seq<byte>>)
    requires id in b.pending && Own(ops, id) == Arrivals(Carry(id, metadata, chunks))
    requires b.pending[id].maxBytes.Some? && 0 < b.pending[id].maxBytes.value < metadata.size
    ensures var after := PerformAll(b, ops);
            var request := b.pending[id];
            && id !in after.active
            && Lookup(after.completed, id) == Lookup(b.completed, id)
            && OutcomesOf(after.outcomes, id)
               == OutcomesOf(b.outcomes, id)
                  + [Answered(id, request.cwd, request.path, Some("File is too large to display"))]
  {
    ReadsDoNotInterfere(b, ops, id);
    ChunksAreKept(ViewOf(b, id), id, metadata, chunks);
    CarryEnds(ViewOf(b, id), id, metadata, chunks);
    hide PerformAll, SeeAll, Carry, OutcomesOf, Own, Arrivals, Opening;
  }

  const NO_READS := Books(map[], map[], map[], [])

  /** No active transfer of a file larger than its byte budget holds a chunk. */
  ghost predicate BudgetKept(b: Books) {
    forall id | id in b.active ::
      var t := b.active[id];
      t.request.maxBytes.Some? && 0 < t.request.maxBytes.value < t.metadata.size ==> t.chunks == []
  }

  lemma PerformKeepsBudget(b: Books, op: Operation)
    requires BudgetKept(b)
    ensures BudgetKept(Perform(b, op))
  {
    hide Assembled, Received;
  }

  /** In every state that starts, frames and finishes of any reads lead to. */
  lemma {:induction false} BudgetIsKept(ops: seq<Operation>)
    ensures BudgetKept(PerformAll(NO_READS, ops))
  {
    hide Perform;
    if ops != [] {
      BudgetIsKept(ops[..|ops| - 1]);
      PerformKeepsBudget(PerformAll(NO_READS, ops[..|ops| - 1]), ops[|ops| - 1]);
    }
  }

  /** A frame for a read that is not pending, or a chunk or end without a begin, does nothing. */
  lemma StrayFramesAreIgnored(b: Books, frame: Frame)
    requires if frame.FileBegin? then frame.requestId !in b.pending else frame.requestId !in b.active
    ensures Perform(b, Arrive(frame)) == b
  {
  }

  // ----- A whole read -----

  /** From the start of a read to its end, whatever other reads do meanwhile: it returns the uploaded
      bytes with the announced facts, and leaves nothing behind. */
  lemma ReadReturnsUpload(b: Books, request: PendingRead, ops: seq<Operation>, id: string, metadata: Metadata,
                          bytes: seq<byte>, chunkSize: nat)
    requires chunkSize > 0 && metadata.size == |bytes|
    requires Own(ops, id) == Arrivals(Carry(id, metadata, Pieces(bytes, chunkSize)))
    requires request.maxBytes.None? || request.maxBytes.value == 0 || |bytes| <= request.maxBytes.value
    ensures var (after, result) := End(PerformAll(Begin(b, id, request), ops), id, false);
            var mime := metadata.mime;
            var kind := if "image/" <= mime then Image
                        else if metadata.encoding == "utf-8" || "text/" <= mime || mime == "application/json" then Plain
                        else Binary;
            && result == Some(FileRead(bytes, mime, |bytes|, request.path, kind, metadata.modifiedAt,
                                       metadata.revision))
            && id !in after.pending && id !in after.active && id !in after.completed
  {
    UploadRoundTrips(Begin(b, id, request), ops, id, metadata, bytes, chunkSize);
    hide PerformAll, Carry, OutcomesOf, Own, Flatten, Pieces, Arrivals;
  }

  /** A read that ends takes what was completed for it, unless it failed; it leaves a trace exactly when
      it failed after its bytes had arrived. */
  lemma TraceLeftIff(b: Books, id: string, failed: bool)
    ensures var (after, result) := End(b, id, failed);
            && (result.Some? <==> !failed && id in b.completed)
            && (result.Some? ==> result.value == b.completed[id])
            && ((id in after.pending || id in after.active || id in after.completed) <==> failed && id in b.completed)
  {
  }

  // ----- The client's maps, updated in place -----

  class FileReads {
    var pendingBinaryFileReads: map<string, PendingRead>
    var activeBinaryFileTransfers: map<string, Transfer>
    var completedBinaryFileReads: map<string, FileRead>
    ghost var outcomes: seq<Outcome>

    ghost function Contents(): Books
      reads this
    {
      Books(pendingBinaryFileReads, activeBinaryFileTransfers, completedBinaryFileReads, outcomes)
    }

    constructor ()
      ensures Contents() == NO_READS
    {
      pendingBinaryFileReads, activeBinaryFileTransfers, completedBinaryFileReads := map[], map[], map[];
      outcomes := [];
    }

    method StartRead(id: string, request: PendingRead)
      modifies this
      ensures Contents() == Perform(old(Contents()), Start(id, request))
    {
      pendingBinaryFileReads := pendingBinaryFileReads[id := request];
    }

    method FinishRead(id: string, failed: bool) returns (r: Option<FileRead>)
      modifies this
      ensures Contents() == Perform(old(Contents()), Finish(id, failed)) && r == End(old(Contents()), id, failed).1
    {
      r := None;
      if !failed && id in completedBinaryFileReads {
        r := Some(completedBinaryFileReads[id]);
        completedBinaryFileReads := completedBinaryFileReads - {id};
      }
      pendingBinaryFileReads := pendingBinaryFileReads - {id};
      activeBinaryFileTransfers := activeBinaryFileTransfers - {id};
    }

    method HandleFileTransferFrame(frame: Frame)
      modifies this
      ensures Contents() == Perform(old(Contents()), Arrive(frame))
    {
      var id := frame.requestId;
      if frame.FileBegin? {
        if id !in pendingBinaryFileReads {
          return;
        }
        var begun := Transfer(pendingBinaryFileReads[id], frame.metadata, []);
        activeBinaryFileTransfers := activeBinaryFileTransfers[id := begun];
        return;
      }
      if id !in activeBinaryFileTransfers {
        return;
      }
      var transfer := activeBinaryFileTransfers[id];
      if frame.FileChunk? {
        if OverBudget(transfer) {
          return;
        }
        var grown := transfer.(chunks := transfer.chunks + [frame.payload]);
        activeBinaryFileTransfers := activeBinaryFileTransfers[id := grown];
        return;
      }
      if OverBudget(transfer) {
        activeBinaryFileTransfers := activeBinaryFileTransfers - {id};
        outcomes := outcomes + [Answer(transfer, id, Some(TOO_LARGE))];
        return;
      }
      var bytes := ConcatByteChunks(transfer.chunks, transfer.metadata.size);
      if bytes.None? {
        outcomes := outcomes + [Overran(id)];
        return;
      }
      activeBinaryFileTransfers := activeBinaryFileTransfers - {id};
      completedBinaryFileReads := completedBinaryFileReads[id := Received(transfer, bytes.value)];
      outcomes := outcomes + [Answer(transfer, id, None)];
    }
  }
}
