/**
 How a file becomes chunks: the send worker cuts an arbitrarily split byte stream into pieces of 8692 bytes,
 and each piece travels behind a 12-byte header.
 */
module FileChunks {
  import opened Bytes

  const CHUNK_DATA_MAX_BYTES: nat := 8692
  const MAX_FILE_SIZE_BYTES: nat := 104_857_600
  const TID_BYTES: nat := 8
  const CHUNK_HEADER_BYTES: nat := 12

  function Flatten(parts: seq<seq<Byte>>): seq<Byte> {
    if parts == [] then [] else parts[0] + Flatten(parts[1..])
  }

  /** The chunks of a file: full pieces, then what is left if anything is. */
  function Chunks(data: seq<Byte>): seq<seq<Byte>> {
    if data == [] then []
    else if |data| <= CHUNK_DATA_MAX_BYTES then [data]
    else [data[..CHUNK_DATA_MAX_BYTES]] + Chunks(data[CHUNK_DATA_MAX_BYTES..])
  }

  /** The full pieces at the front of `data`, and the bytes after them. */
  function FullPieces(data: seq<Byte>): seq<seq<Byte>> {
    if |data| < CHUNK_DATA_MAX_BYTES then []
    else [data[..CHUNK_DATA_MAX_BYTES]] + FullPieces(data[CHUNK_DATA_MAX_BYTES..])
  }

  function Rest(data: seq<Byte>): seq<Byte> {
    if |data| < CHUNK_DATA_MAX_BYTES then data else Rest(data[CHUNK_DATA_MAX_BYTES..])
  }

  /** `ceil(size / 8692)`. */
  function TotalChunks(size: nat): nat {
    (size + CHUNK_DATA_MAX_BYTES - 1) / CHUNK_DATA_MAX_BYTES
  }

  function ExpectedChunkLen(size: nat, seqNo: nat, total: nat): int {
    if seqNo + 1 < total then CHUNK_DATA_MAX_BYTES else size - CHUNK_DATA_MAX_BYTES * (total - 1)
  }

  function Min(a: int, b: int): int {
    if a <= b then a else b
  }

  // ---- what the chunks of a file are ------------------------------------------------------------

  /** Every piece is full except a non-empty last one, there are ceil(size / 8692) of them, and they make up the file. */
  lemma {:induction false} ChunksOfFile(data: seq<Byte>)
    ensures Flatten(Chunks(data)) == data
    ensures |Chunks(data)| == TotalChunks(|data|)
    ensures forall k :: 0 <= k < |Chunks(data)| ==>
              && |Chunks(data)[k]| == ExpectedChunkLen(|data|, k, TotalChunks(|data|))
              && 0 < |Chunks(data)[k]| <= CHUNK_DATA_MAX_BYTES
  {
    if |data| > CHUNK_DATA_MAX_BYTES {
      var rest := data[CHUNK_DATA_MAX_BYTES..];
      ChunksOfFile(rest);
      assert Chunks(data)[1..] == Chunks(rest);
      assert TotalChunks(|data|) == 1 + TotalChunks(|rest|);
      forall k | 1 <= k < |Chunks(data)|
        ensures |Chunks(data)[k]| == ExpectedChunkLen(|data|, k, TotalChunks(|data|))
        ensures 0 < |Chunks(data)[k]| <= CHUNK_DATA_MAX_BYTES
      {
        assert Chunks(data)[k] == Chunks(rest)[k - 1];
      }
    } else if data != [] {
      assert Chunks(data) == [data];
      assert Flatten(Chunks(data)[1..]) == [];
    }
  }

  /** The first `k` chunks are the first `min(8692 k, size)` bytes. */
  lemma {:induction false} ChunkPrefix(data: seq<Byte>, k: nat)
    requires k <= |Chunks(data)|
    ensures 0 <= Min(k * CHUNK_DATA_MAX_BYTES, |data|) <= |data|
    ensures Flatten(Chunks(data)[..k]) == data[..Min(k * CHUNK_DATA_MAX_BYTES, |data|)]
  {
    if k > 0 {
      var first := Chunks(data)[0];
      assert Chunks(data)[..k] == [first] + Chunks(data)[1..k];
      assert Chunks(data)[..k][1..] == Chunks(data)[1..k];
      if |data| > CHUNK_DATA_MAX_BYTES {
        var rest := data[CHUNK_DATA_MAX_BYTES..];
        ChunkPrefix(rest, k - 1);
        assert Chunks(data)[1..k] == Chunks(rest)[..k - 1];
      } else {
        assert Chunks(data)[1..k] == [];
      }
    }
  }

  lemma {:induction false} FlattenAppend(a: seq<seq<Byte>>, b: seq<seq<Byte>>)
    ensures Flatten(a + b) == Flatten(a) + Flatten(b)
  {
    if a == [] {
      assert a + b == b;
    } else {
      FlattenAppend(a[1..], b);
      assert (a + b)[1..] == a[1..] + b;
    }
  }

  lemma {:induction false} ChunksSplit(data: seq<Byte>, more: seq<Byte>)
    ensures Chunks(data + more) == FullPieces(data) + Chunks(Rest(data) + more)
  {
    if |data| < CHUNK_DATA_MAX_BYTES {
      assert FullPieces(data) + Chunks(Rest(data) + more) == Chunks(data + more);
    } else {
      var rest := data[CHUNK_DATA_MAX_BYTES..];
      ChunksSplit(rest, more);
      assert (data + more)[..CHUNK_DATA_MAX_BYTES] == data[..CHUNK_DATA_MAX_BYTES];
      assert (data + more)[CHUNK_DATA_MAX_BYTES..] == rest + more;
      if |data + more| == CHUNK_DATA_MAX_BYTES {
        assert rest + more == [];
        assert data + more == data[..CHUNK_DATA_MAX_BYTES];
      }
    }
  }

  // ---- the send worker ----------------------------------------------------------------------------

  class SendWorker {
    var pendingTail: seq<Byte>

    constructor ()
      ensures pendingTail == []
    {
      pendingTail := [];
    }

    method ConsumeIntoChunks(input: seq<Byte>, isEof: bool) returns (pieces: seq<seq<Byte>>)
      modifies this
      ensures !isEof ==> pieces == FullPieces(old(pendingTail) + input) && pendingTail == Rest(old(pendingTail) + input)
      ensures isEof ==> pieces == Chunks(old(pendingTail) + input) && pendingTail == []
    {
      var combined := pendingTail + input;
      pieces := [];
      var offset := 0;
      while offset + CHUNK_DATA_MAX_BYTES <= |combined|
        invariant 0 <= offset <= |combined|
        invariant pieces + FullPieces(combined[offset..]) == FullPieces(combined)
        invariant pieces + Chunks(combined[offset..]) == Chunks(combined)
        invariant Rest(combined[offset..]) == Rest(combined)
      {
        ghost var left := combined[offset..];
        pieces := pieces + [combined[offset..offset + CHUNK_DATA_MAX_BYTES]];
        assert left[..CHUNK_DATA_MAX_BYTES] == combined[offset..offset + CHUNK_DATA_MAX_BYTES];
        assert left[CHUNK_DATA_MAX_BYTES..] == combined[offset + CHUNK_DATA_MAX_BYTES..];
        assert |left| == CHUNK_DATA_MAX_BYTES ==> left[..CHUNK_DATA_MAX_BYTES] == left;
        offset := offset + CHUNK_DATA_MAX_BYTES;
      }
      if isEof {
        if offset < |combined| {
          pieces := pieces + [combined[offset..]];
        }
        pendingTail := [];
      } else {
        pendingTail := combined[offset..];
      }
    }

    /** The worker's read loop over a stream delivered in `parts`: the emitted pieces depend only on the bytes. */
    method RunPipeline(parts: seq<seq<Byte>>) returns (emitted: seq<seq<Byte>>)
      requires pendingTail == []
      modifies this
      ensures emitted == Chunks(Flatten(parts))
    {
      emitted := [];
      var i := 0;
      assert parts[0..] == parts && pendingTail + Flatten(parts) == Flatten(parts);
      while i < |parts|
        invariant 0 <= i <= |parts|
        invariant emitted + Chunks(pendingTail + Flatten(parts[i..])) == Chunks(Flatten(parts))
      {
        ghost var before := pendingTail;
        var pieces := ConsumeIntoChunks(parts[i], false);
        ChunksSplit(before + parts[i], Flatten(parts[i + 1..]));
        assert parts[i..][1..] == parts[i + 1..];
        assert before + parts[i] + Flatten(parts[i + 1..]) == before + Flatten(parts[i..]);
        emitted := emitted + pieces;
        i := i + 1;
      }
      var pieces := ConsumeIntoChunks([], true);
      emitted := emitted + pieces;
    }
  }

  // ---- the chunk header -----------------------------------------------------------------------------

  datatype ChunkPlaintext = ChunkPlaintext(tid: seq<Byte>, seqNo: nat, data: seq<Byte>)

  function BuildChunkPlaintext(tid: seq<Byte>, seqNo: nat, data: seq<Byte>): seq<Byte> {
    tid + LittleEndian(seqNo, 4) + data
  }

  function ParseChunkPlaintext(plaintext: seq<Byte>): Option<ChunkPlaintext> {
    if |plaintext| < CHUNK_HEADER_BYTES then None
    else Some(ChunkPlaintext(plaintext[..TID_BYTES], FromLittleEndian(plaintext[TID_BYTES..CHUNK_HEADER_BYTES]),
                             plaintext[CHUNK_HEADER_BYTES..]))
  }

  lemma ChunkRoundTrip(tid: seq<Byte>, seqNo: nat, data: seq<Byte>)
    requires |tid| == TID_BYTES && seqNo < 0x1_0000_0000
    ensures ParseChunkPlaintext(BuildChunkPlaintext(tid, seqNo, data)) == Some(ChunkPlaintext(tid, seqNo, data))
  {
    assert FieldSize(2) == 65536 && FieldSize(4) == 65536 * FieldSize(2);
    ReadAfterWrite(seqNo, 4);
    var plaintext := BuildChunkPlaintext(tid, seqNo, data);
    assert plaintext[..TID_BYTES] == tid;
    assert plaintext[TID_BYTES..CHUNK_HEADER_BYTES] == LittleEndian(seqNo, 4);
    assert plaintext[CHUNK_HEADER_BYTES..] == data;
  }
}
