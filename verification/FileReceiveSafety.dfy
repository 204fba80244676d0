/**
 What every run of the receiving half keeps, whatever the peer sends and however page and worker interleave:
 bytes and credits are conserved, chunks reach the worker in order, and finalize is requested at most once.
 */
module FileReceiveSafety {
  import opened Bytes
  import opened FileChunks
  import opened FileReceive

  // ---- what is in flight ------------------------------------------------------------------------------

  function Pieces(inbox: seq<WorkerIn>): seq<Piece> {
    if inbox == [] then []
    else (if inbox[0].ToWrite? then [inbox[0].piece] else []) + Pieces(inbox[1..])
  }

  function PieceBytes(ps: seq<Piece>): nat {
    if ps == [] then 0 else |ps[0].data| + PieceBytes(ps[1..])
  }

  function ReportedBytes(reports: seq<Report>): nat {
    if reports == [] then 0
    else (if reports[0].Wrote? then reports[0].bytes else 0) + ReportedBytes(reports[1..])
  }

  function ReportedPieces(reports: seq<Report>): nat {
    if reports == [] then 0
    else (if reports[0].Wrote? then 1 else 0) + ReportedPieces(reports[1..])
  }

  lemma {:induction false} PiecesAppend(inbox: seq<WorkerIn>, more: seq<WorkerIn>)
    ensures Pieces(inbox + more) == Pieces(inbox) + Pieces(more)
  {
    if inbox == [] {
      assert inbox + more == more;
    } else {
      PiecesAppend(inbox[1..], more);
      assert (inbox + more)[1..] == inbox[1..] + more;
    }
  }

  lemma {:induction false} BytesAppend(ps: seq<Piece>, more: seq<Piece>)
    ensures PieceBytes(ps + more) == PieceBytes(ps) + PieceBytes(more)
  {
    if ps == [] {
      assert ps + more == more;
    } else {
      BytesAppend(ps[1..], more);
      assert (ps + more)[1..] == ps[1..] + more;
    }
  }

  lemma {:induction false} ReportsAppend(reports: seq<Report>, more: seq<Report>)
    ensures ReportedBytes(reports + more) == ReportedBytes(reports) + ReportedBytes(more)
    ensures ReportedPieces(reports + more) == ReportedPieces(reports) + ReportedPieces(more)
  {
    if reports == [] {
      assert reports + more == more;
    } else {
      ReportsAppend(reports[1..], more);
      assert (reports + more)[1..] == reports[1..] + more;
    }
  }

  // ---- the invariant ------------------------------------------------------------------------------------

  /** The pieces not yet written: first those posted to the worker, then those queued in the page. */
  function Unwritten(k: Sink): seq<Piece>
    requires k.main.Some?
  {
    Pieces(k.inbox) + k.main.value.pendingChunkQueue
  }

  /** The unwritten pieces are the last ones that arrived, in sequence order and of the prescribed lengths. */
  ghost predicate InOrder(k: Sink, s: Receiving)
    requires k.main == Some(s)
  {
    var ps := Unwritten(k);
    && k.wrote + |ps| == s.nextExpectedSeq <= TotalChunks(s.expectedSize)
    && (forall i :: 0 <= i < |ps| ==>
          && ps[i].seqNo == k.wrote + i
          && |ps[i].data| == ExpectedChunkLen(s.expectedSize, ps[i].seqNo, TotalChunks(s.expectedSize)))
  }

  ghost predicate Conserved(k: Sink, s: Receiving) {
    && s.bytesWritten + ReportedBytes(k.reports) + PieceBytes(Pieces(k.inbox)) + PieceBytes(s.pendingChunkQueue)
       == s.networkReceivedBytes
    && s.networkReceivedBytes == Min(s.nextExpectedSeq * CHUNK_DATA_MAX_BYTES, s.expectedSize)
    && k.written == s.bytesWritten + ReportedBytes(k.reports)
    && s.receiveCredit + |Pieces(k.inbox)| + ReportedPieces(k.reports) == RECV_INITIAL_CREDIT
    && (s.pendingChunkQueue != [] ==> s.receiveCredit == 0)
    && |s.pendingChunkQueue| <= RECV_PENDING_HARD_CAP_CHUNKS
  }

  ghost predicate FinalizedOnce(k: Sink, s: Receiving) {
    && k.finalizes == (if s.finalizeRequested then 1 else 0)
    && (s.finalizeRequested ==> s.bytesWritten == s.expectedSize && s.senderSha256.Some?)
    && (Finalize in k.inbox ==> s.finalizeRequested && k.inbox == [Finalize])
    && ((exists r :: r in k.reports && r.Finished?) ==> s.finalizeRequested)
    && (s.finalizeRequested ==> Finalize in k.inbox || exists r :: r in k.reports && r.Finished?)
  }

  /** What the worker has on disk is what it has hashed, and it ends where the next piece begins. */
  ghost predicate OnDisk(k: Sink, s: Receiving) {
    && k.file == k.hashed
    && |k.file| == k.written == Min(k.wrote * CHUNK_DATA_MAX_BYTES, s.expectedSize)
    && (forall r :: r in k.reports && r.Finished? ==> r == Finished(k.hashed, k.written, |k.file|))
  }

  ghost predicate SinkOk(k: Sink) {
    k.main.Some? ==>
      var s := k.main.value;
      && s.expectedSize > 0
      && InOrder(k, s)
      && Conserved(k, s)
      && FinalizedOnce(k, s)
      && OnDisk(k, s)
  }

  /** The number of bytes before chunk `n` plus its length is the number of bytes before chunk `n + 1`. */
  lemma ChunkLengths(size: nat, n: nat)
    requires n < TotalChunks(size)
    ensures var len := ExpectedChunkLen(size, n, TotalChunks(size));
            && 0 < len
            && Min((n + 1) * CHUNK_DATA_MAX_BYTES, size) == n * CHUNK_DATA_MAX_BYTES + len
            && Min(n * CHUNK_DATA_MAX_BYTES, size) == n * CHUNK_DATA_MAX_BYTES
  {
  }

  /** All bytes have arrived exactly when all chunks have. */
  lemma AllArrived(size: nat, n: nat)
    requires size > 0 && n <= TotalChunks(size)
    ensures Min(n * CHUNK_DATA_MAX_BYTES, size) == size <==> n == TotalChunks(size)
  {
    if n < TotalChunks(size) {
      ChunkLengths(size, n);
    }
  }

  lemma ChunkInOrder(k: Sink, c: ChunkPlaintext)
    requires k.main.Some? && SinkOk(k) && c.tid == k.main.value.tid && OnChunk(k.main.value, c).Going?
    requires k.main.value.receiveCredit > 0 ==> k.main.value.pendingChunkQueue == []
    ensures var k' := React(k, OnChunk(k.main.value, c));
            && InOrder(k', k'.main.value)
            && Unwritten(k') == Unwritten(k) + [Piece(c.seqNo, c.data)]
            && (k.main.value.receiveCredit > 0 ==> Pieces(k'.inbox) == Pieces(k.inbox) + [Piece(c.seqNo, c.data)])
            && (k.main.value.receiveCredit == 0 ==> k'.inbox == k.inbox)
  {
    hide TotalChunks, ExpectedChunkLen, Conserved, FinalizedOnce, OnDisk, PieceBytes;
    var s := k.main.value;
    var r := OnChunk(s, c);
    var piece := Piece(c.seqNo, c.data);
    PiecesAppend(k.inbox, r.posts);
    assert Pieces([ToWrite(piece)]) == [piece];
    assert Pieces([]) == [];
    var k' := React(k, r);
    assert Unwritten(k') == Unwritten(k) + [piece] by {
      if s.receiveCredit > 0 {
        assert r.posts == [ToWrite(piece)];
      } else {
        assert r.posts == [] && k.inbox + [] == k.inbox;
      }
    }
    OrderGrows(k, k', s, c);
  }

  lemma OrderGrows(k: Sink, k': Sink, s: Receiving, c: ChunkPlaintext)
    requires k.main == Some(s) && InOrder(k, s) && OnChunk(s, c).Going? && c.tid == s.tid
    requires k'.main == Some(OnChunk(s, c).state) && k'.wrote == k.wrote
    requires Unwritten(k') == Unwritten(k) + [Piece(c.seqNo, c.data)]
    ensures InOrder(k', k'.main.value)
  {
    hide TotalChunks, ExpectedChunkLen, Unwritten;
  }

  lemma ChunkKept(k: Sink, c: ChunkPlaintext)
    requires k.main.Some? && SinkOk(k)
    ensures SinkOk(React(k, OnChunk(k.main.value, c)))
  {
    hide TotalChunks, ExpectedChunkLen, InOrder, Unwritten, ReportedBytes, ReportedPieces;
    var s := k.main.value;
    var r := OnChunk(s, c);
    if r.Going? && c.tid == s.tid {
      ChunkInOrder(k, c);
      ChunkLengths(s.expectedSize, c.seqNo);
      AllArrived(s.expectedSize, s.nextExpectedSeq);
      var piece := Piece(c.seqNo, c.data);
      BytesAppend(Pieces(k.inbox), [piece]);
      BytesAppend(s.pendingChunkQueue, [piece]);
      var k' := React(k, r);
      assert Conserved(k', k'.main.value);
      assert FinalizedOnce(k', k'.main.value);
    } else if r.Going? {
      assert k.inbox + [] == k.inbox;
    }
  }

  lemma {:induction false} AtLeastOneByteEach(ps: seq<Piece>)
    requires forall i :: 0 <= i < |ps| ==> |ps[i].data| > 0
    ensures PieceBytes(ps) >= |ps|
  {
    if ps != [] {
      AtLeastOneByteEach(ps[1..]);
    }
  }

  lemma {:induction false} OnlyPieces(inbox: seq<WorkerIn>)
    requires Finalize !in inbox
    ensures |Pieces(inbox)| == |inbox|
  {
    if inbox != [] {
      OnlyPieces(inbox[1..]);
    }
  }

  lemma UnwrittenNonEmpty(k: Sink, s: Receiving)
    requires k.main == Some(s) && InOrder(k, s)
    ensures PieceBytes(Pieces(k.inbox)) >= |Pieces(k.inbox)|
    ensures PieceBytes(s.pendingChunkQueue) >= |s.pendingChunkQueue|
  {
    var ps := Unwritten(k);
    forall i | 0 <= i < |ps| ensures |ps[i].data| > 0 {
      ChunkLengths(s.expectedSize, ps[i].seqNo);
    }
    forall i | 0 <= i < |Pieces(k.inbox)| ensures |Pieces(k.inbox)[i].data| > 0 {
      assert Pieces(k.inbox)[i] == ps[i];
    }
    forall i | 0 <= i < |s.pendingChunkQueue| ensures |s.pendingChunkQueue[i].data| > 0 {
      assert s.pendingChunkQueue[i] == ps[|Pieces(k.inbox)| + i];
    }
    AtLeastOneByteEach(Pieces(k.inbox));
    AtLeastOneByteEach(s.pendingChunkQueue);
  }

  /** Finalizing is due only when nothing is in flight any more. */
  lemma FinalizeKept(k: Sink, s: Receiving)
    requires k.main == Some(s) && SinkOk(k) && Finalize !in k.inbox
    ensures SinkOk(React(k, MaybeFinalize(s, [])))
  {
    if MaybeFinalize(s, []) == Going(s, []) {
      assert k.inbox + [] == k.inbox;
    } else {
      UnwrittenNonEmpty(k, s);
      OnlyPieces(k.inbox);
      assert k.inbox + [Finalize] == [Finalize];
      assert Pieces([Finalize]) == [];
    }
  }

  lemma CompleteKept(k: Sink, tid: seq<Byte>, sha: Digest)
    requires k.main.Some? && SinkOk(k)
    ensures SinkOk(React(k, OnComplete(k.main.value, tid, sha)))
  {
    var s := k.main.value;
    assert k.inbox + [] == k.inbox;
    if tid == s.tid && s.networkReceivedBytes >= s.expectedSize {
      var s' := s.(senderSha256 := Some(sha));
      var k' := k.(main := Some(s'));
      assert Unwritten(k') == Unwritten(k);
      assert SinkOk(k');
      if !s.finalizeRequested {
        FinalizeKept(k', s');
      }
    }
  }

  lemma WriteKept(k: Sink, piece: Piece)
    requires k.main.Some? && SinkOk(k) && k.inbox != [] && k.inbox[0] == ToWrite(piece)
    ensures SinkOk(WorkerStep(k))
  {
    hide TotalChunks, ExpectedChunkLen;
    var s := k.main.value;
    var k' := WorkerStep(k);
    assert Unwritten(k)[0] == piece;
    assert Unwritten(k') == Unwritten(k)[1..];
    assert InOrder(k', s);
    ReportsAppend(k.reports, [Wrote(|piece.data|)]);
    assert ReportedBytes([Wrote(|piece.data|)]) == |piece.data| && ReportedPieces([Wrote(|piece.data|)]) == 1;
    assert Conserved(k', s);
    WorkerNotFinished(k, s);
    assert FinalizedOnce(k', s);
    ChunkLengths(s.expectedSize, piece.seqNo);
    PieceAppends(k, s, piece);
    assert OnDisk(k', s);
  }

  /** The next piece to write begins exactly where the file ends. */
  lemma PieceAppends(k: Sink, s: Receiving, piece: Piece)
    requires OnDisk(k, s) && piece.seqNo == k.wrote < TotalChunks(s.expectedSize)
    ensures WriteAt(k.file, piece.seqNo * CHUNK_DATA_MAX_BYTES, piece.data) == k.file + piece.data
  {
    ChunkLengths(s.expectedSize, piece.seqNo);
  }

  lemma WorkerKept(k: Sink)
    requires k.main.Some? && SinkOk(k) && k.inbox != []
    ensures SinkOk(WorkerStep(k))
  {
    match k.inbox[0]
    case ToWrite(piece) => WriteKept(k, piece);
    case Finalize =>
      hide TotalChunks, ExpectedChunkLen;
      var report := Finished(k.hashed, k.written, |k.file|);
      ReportsAppend(k.reports, [report]);
      assert ReportedBytes([report]) == 0 && ReportedPieces([report]) == 0;
      assert k.inbox == [Finalize] && WorkerStep(k).inbox == [];
      assert report in WorkerStep(k).reports;
  }

  /** While a piece is waiting to be written no finished report is out. */
  lemma WorkerNotFinished(k: Sink, s: Receiving)
    requires k.main == Some(s) && SinkOk(k) && k.inbox != [] && k.inbox[0].ToWrite?
    ensures forall r :: r in k.reports ==> !r.Finished?
  {
    UnwrittenNonEmpty(k, s);
    assert |Pieces(k.inbox)| >= 1;
  }

  lemma NotFinalizedWhileQueued(k: Sink, s: Receiving)
    requires k.main == Some(s) && SinkOk(k) && s.pendingChunkQueue != []
    ensures !s.finalizeRequested && Finalize !in k.inbox
  {
    UnwrittenNonEmpty(k, s);
  }

  lemma WrittenKept(k: Sink)
    requires k.main.Some? && SinkOk(k) && k.reports != [] && k.reports[0].Wrote?
    ensures SinkOk(ReportStep(k))
  {
    if k.main.value.pendingChunkQueue == [] {
      WrittenNoneQueued(k, k.main.value);
    } else {
      WrittenNextPosted(k, k.main.value);
    }
  }

  lemma WrittenNoneQueued(k: Sink, s: Receiving)
    requires k.main == Some(s) && SinkOk(k) && k.reports != [] && k.reports[0].Wrote? && s.pendingChunkQueue == []
    ensures SinkOk(ReportStep(k))
  {
    hide TotalChunks, ExpectedChunkLen, InOrder, Conserved, OnDisk, Unwritten;
    var s2 := s.(bytesWritten := s.bytesWritten + k.reports[0].bytes, receiveCredit := s.receiveCredit + 1);
    var k2 := k.(reports := k.reports[1..], main := Some(s2));
    ReportKeepsRest(k, s, k2, s2);
    if Finalize !in k2.inbox {
      FinalizeKept(k2, s2);
    }
    assert k2.inbox + [] == k2.inbox;
    assert ReportStep(k) == React(k2, MaybeFinalize(s2, []));
  }

  lemma WrittenNextPosted(k: Sink, s: Receiving)
    requires k.main == Some(s) && SinkOk(k) && k.reports != [] && k.reports[0].Wrote? && s.pendingChunkQueue != []
    ensures SinkOk(ReportStep(k))
  {
    hide TotalChunks, ExpectedChunkLen, InOrder, Conserved, OnDisk, Unwritten, SinkOk;
    var piece := s.pendingChunkQueue[0];
    var s2 := s.(bytesWritten := s.bytesWritten + k.reports[0].bytes, pendingChunkQueue := s.pendingChunkQueue[1..]);
    var k2 := k.(reports := k.reports[1..], main := Some(s2), inbox := k.inbox + [ToWrite(piece)]);
    PiecesAppend(k.inbox, [ToWrite(piece)]);
    assert Pieces([ToWrite(piece)]) == [piece];
    BytesAppend(Pieces(k.inbox), [piece]);
    assert PieceBytes([piece]) == |piece.data|;
    NotFinalizedWhileQueued(k, s);
    ReportKeepsRest(k, s, k2, s2);
    FinalizeKept(k2, s2);
    PostThenFinalize(k, s, k2, s2);
  }

  lemma PostThenFinalize(k: Sink, s: Receiving, k2: Sink, s2: Receiving)
    requires k.main == Some(s) && k.reports != [] && k.reports[0].Wrote? && s.pendingChunkQueue != []
    requires s2 == s.(bytesWritten := s.bytesWritten + k.reports[0].bytes,
                      pendingChunkQueue := s.pendingChunkQueue[1..])
    requires k2 == k.(reports := k.reports[1..], main := Some(s2),
                      inbox := k.inbox + [ToWrite(s.pendingChunkQueue[0])])
    ensures ReportStep(k) == React(k2, MaybeFinalize(s2, []))
  {
    var post := [ToWrite(s.pendingChunkQueue[0])];
    assert k2.inbox + [Finalize] == k.inbox + (post + [Finalize]);
    assert k2.inbox + [] == k.inbox + post;
  }

  /** `k2` and `s2` are what is left when the page has taken a `written` report and posted the oldest queued piece. */
  ghost predicate ReportTaken(k: Sink, s: Receiving, k2: Sink, s2: Receiving) {
    && k.main == Some(s) && k.reports != [] && k.reports[0].Wrote? && k2.main == Some(s2)
    && k2 == k.(main := k2.main, reports := k.reports[1..], inbox := k2.inbox)
    && s2 == s.(bytesWritten := s.bytesWritten + k.reports[0].bytes,
                receiveCredit := s2.receiveCredit, pendingChunkQueue := s2.pendingChunkQueue)
    && (|| (k2.inbox == k.inbox && s2.pendingChunkQueue == s.pendingChunkQueue == []
            && s2.receiveCredit == s.receiveCredit + 1)
        || (s.pendingChunkQueue != [] && k2.inbox == k.inbox + [ToWrite(s.pendingChunkQueue[0])]
            && s2.pendingChunkQueue == s.pendingChunkQueue[1..] && s2.receiveCredit == s.receiveCredit))
    && |Pieces(k2.inbox)| + |s2.pendingChunkQueue| == |Pieces(k.inbox)| + |s.pendingChunkQueue|
    && PieceBytes(Pieces(k2.inbox)) + PieceBytes(s2.pendingChunkQueue)
       == PieceBytes(Pieces(k.inbox)) + PieceBytes(s.pendingChunkQueue)
  }

  lemma ReportKeepsOrder(k: Sink, s: Receiving, k2: Sink, s2: Receiving)
    requires ReportTaken(k, s, k2, s2) && InOrder(k, s)
    ensures InOrder(k2, s2)
  {
    hide TotalChunks, ExpectedChunkLen;
    if s.pendingChunkQueue != [] {
      PiecesAppend(k.inbox, [ToWrite(s.pendingChunkQueue[0])]);
      assert Pieces([ToWrite(s.pendingChunkQueue[0])]) == [s.pendingChunkQueue[0]];
    }
    assert Unwritten(k2) == Unwritten(k);
  }

  lemma ReportKeepsBytes(k: Sink, s: Receiving, k2: Sink, s2: Receiving)
    requires ReportTaken(k, s, k2, s2) && Conserved(k, s)
    ensures Conserved(k2, s2)
  {
    hide Min;
  }

  lemma ReportKeepsDisk(k: Sink, s: Receiving, k2: Sink, s2: Receiving)
    requires ReportTaken(k, s, k2, s2) && OnDisk(k, s)
    ensures OnDisk(k2, s2)
  {
    hide Min, PieceBytes, Pieces;
    assert forall r :: r in k2.reports ==> r in k.reports;
  }

  lemma ReportKeepsFinalize(k: Sink, s: Receiving, k2: Sink, s2: Receiving)
    requires ReportTaken(k, s, k2, s2) && SinkOk(k)
    ensures FinalizedOnce(k2, s2)
  {
    hide TotalChunks, ExpectedChunkLen;
    UnwrittenNonEmpty(k, s);
    assert forall r :: r in k2.reports ==> r in k.reports;
  }

  /** Taking a `written` report moves its bytes from in flight to written and nothing else. */
  lemma ReportKeepsRest(k: Sink, s: Receiving, k2: Sink, s2: Receiving)
    requires ReportTaken(k, s, k2, s2) && SinkOk(k)
    ensures SinkOk(k2)
  {
    ReportKeepsFinalize(k, s, k2, s2);
    ReportKeepsOrder(k, s, k2, s2);
    ReportKeepsBytes(k, s, k2, s2);
    ReportKeepsDisk(k, s, k2, s2);
    hide InOrder, Conserved, OnDisk, FinalizedOnce, PieceBytes, Pieces;
  }

  lemma BreakKept(k: Sink)
    requires SinkOk(k) && k.main.Some?
    ensures SinkOk(Feed(k, WorkerBreaks))
  {
    hide TotalChunks, ExpectedChunkLen, PieceBytes, Pieces;
    ReportsAppend(k.reports, [Failed]);
    assert ReportedBytes([Failed]) == 0 && ReportedPieces([Failed]) == 0;
  }

  lemma OverIsOk(k: Sink)
    requires k.main.None?
    ensures SinkOk(k)
  {
    hide InOrder, Conserved, FinalizedOnce, OnDisk;
  }

  lemma FeedKept(k: Sink, input: Input)
    requires SinkOk(k)
    ensures SinkOk(Feed(k, input))
  {
    hide SinkOk, ParseChunkPlaintext, OnChunk, OnComplete, OnWritten, WorkerStep, React;
    if k.main.Some? {
      match input
      case ChunkArrives(plaintext) =>
        if ParseChunkPlaintext(plaintext).Some? {
          ChunkKept(k, ParseChunkPlaintext(plaintext).value);
        } else {
          OverIsOk(Feed(k, input));
        }
      case CompleteArrives(tid, sha) => CompleteKept(k, tid, sha);
      case WorkerRuns =>
        if k.inbox != [] && !k.broken {
          WorkerKept(k);
        }
      case WorkerBreaks => BreakKept(k);
      case ReportArrives =>
        if k.reports != [] && k.reports[0].Wrote? {
          WrittenKept(k);
        } else if k.reports != [] {
          OverIsOk(Feed(k, input));
        }
      case CancelArrives => OverIsOk(Feed(k, input));
    }
  }

  lemma {:induction false} ReceiveKept(tid: seq<Byte>, size: nat, inputs: seq<Input>)
    requires size > 0
    ensures SinkOk(Receive(tid, size, inputs))
  {
    if inputs == [] {
      NewSinkOk(tid, size);
    } else {
      ReceiveKept(tid, size, inputs[..|inputs| - 1]);
      FeedKept(Receive(tid, size, inputs[..|inputs| - 1]), inputs[|inputs| - 1]);
    }
  }

  lemma NewSinkOk(tid: seq<Byte>, size: nat)
    requires size > 0
    ensures SinkOk(NewSink(tid, size))
  {
    var k := NewSink(tid, size);
    assert Unwritten(k) == [];
  }

  lemma {:induction false} SizeKept(tid: seq<Byte>, size: nat, inputs: seq<Input>)
    ensures var k := Receive(tid, size, inputs); k.main.Some? ==> k.main.value.expectedSize == size
  {
    if inputs != [] {
      SizeKept(tid, size, inputs[..|inputs| - 1]);
    }
  }

  /**
   In every state the receiver can reach, whatever arrives and however page and worker interleave: written, in
   flight and queued bytes add up to the bytes received, which are min(8692 * next, size); four credits
   are split between free, posted and reported chunks; only a page out of credit queues, at most 32
   chunks; posted and queued chunks are the next ones to write, in order; finalize is posted at most
   once, and then every byte has been written.
   */
  lemma ReceivingIsConserved(tid: seq<Byte>, size: nat, inputs: seq<Input>)
    requires size > 0 && Receive(tid, size, inputs).main.Some?
    ensures var k := Receive(tid, size, inputs);
            var s := k.main.value;
            && s.bytesWritten + ReportedBytes(k.reports) + PieceBytes(Pieces(k.inbox)) + PieceBytes(s.pendingChunkQueue)
               == s.networkReceivedBytes == Min(s.nextExpectedSeq * CHUNK_DATA_MAX_BYTES, size)
            && s.receiveCredit + |Pieces(k.inbox)| + ReportedPieces(k.reports) == 4
            && (s.pendingChunkQueue != [] ==> s.receiveCredit == 0)
            && |s.pendingChunkQueue| <= 32
            && (forall i :: 0 <= i < |Unwritten(k)| ==> Unwritten(k)[i].seqNo == k.wrote + i)
            && k.wrote + |Unwritten(k)| == s.nextExpectedSeq
            && k.finalizes <= 1
            && (k.finalizes == 1 ==> s.bytesWritten == size)
  {
    ReceiveKept(tid, size, inputs);
    SizeKept(tid, size, inputs);
  }
}
