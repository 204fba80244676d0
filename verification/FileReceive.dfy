/**
 The receiving half of a file transfer: the page's bookkeeping of sequence numbers, credits and queued
 chunks, and the worker that writes them.  The functions give each handler's effect on values; the class
 performs them in place.  The peer is arbitrary here: nothing is assumed about what arrives.

 SHA-256 is ideal: a digest is named by the bytes that were hashed.
 */
module FileReceive {
  import opened Bytes
  import opened FileChunks

  const RECV_INITIAL_CREDIT: nat := 4
  const RECV_PENDING_HARD_CAP_CHUNKS: nat := 32

  type Digest = seq<Byte>

  datatype Piece = Piece(seqNo: nat, data: seq<Byte>)

  /** Messages from the page to the worker. */
  datatype WorkerIn = ToWrite(piece: Piece) | Finalize

  /** Messages from the worker to the page. */
  datatype Report = Wrote(bytes: nat) | Finished(digest: Digest, bytesWritten: nat, fileSize: nat) | Failed

  datatype AbortReason = Malformed | BadChunk | QueueFull | EarlyComplete | WorkerFailure | IntegrityMismatch | Cancelled

  datatype Receiving = Receiving(
    tid: seq<Byte>,
    expectedSize: nat,
    nextExpectedSeq: nat,
    networkReceivedBytes: nat,
    bytesWritten: nat,
    receiveCredit: nat,
    pendingChunkQueue: seq<Piece>,
    senderSha256: Option<Digest>,
    finalizeRequested: bool)

  function BeginReceiving(tid: seq<Byte>, size: nat): Receiving {
    Receiving(tid, size, 0, 0, 0, RECV_INITIAL_CREDIT, [], None, false)
  }

  /** The handler's new state and the messages it posted, or the abort it ran into. */
  datatype Reaction = Going(state: Receiving, posts: seq<WorkerIn>) | Aborted(reason: AbortReason)

  function OnChunk(s: Receiving, c: ChunkPlaintext): Reaction {
    if c.tid != s.tid then Going(s, [])
    else
      var total := TotalChunks(s.expectedSize);
      if c.seqNo != s.nextExpectedSeq || c.seqNo >= total
         || |c.data| != ExpectedChunkLen(s.expectedSize, c.seqNo, total)
      then Aborted(BadChunk)
      else if |s.pendingChunkQueue| >= RECV_PENDING_HARD_CAP_CHUNKS then Aborted(QueueFull)
      else
        var piece := Piece(c.seqNo, c.data);
        var s' := s.(nextExpectedSeq := s.nextExpectedSeq + 1,
                     networkReceivedBytes := s.networkReceivedBytes + |c.data|);
        if s.receiveCredit > 0 then Going(s'.(receiveCredit := s.receiveCredit - 1), [ToWrite(piece)])
        else Going(s'.(pendingChunkQueue := s.pendingChunkQueue + [piece]), [])
  }

  function MaybeFinalize(s: Receiving, posts: seq<WorkerIn>): Reaction {
    if s.finalizeRequested || s.senderSha256.None? || s.pendingChunkQueue != [] || s.bytesWritten < s.expectedSize
    then Going(s, posts)
    else Going(s.(finalizeRequested := true), posts + [Finalize])
  }

  function OnWritten(s: Receiving, bytes: nat): Reaction {
    var s' := s.(bytesWritten := s.bytesWritten + bytes);
    if s.pendingChunkQueue == [] then MaybeFinalize(s'.(receiveCredit := s.receiveCredit + 1), [])
    else MaybeFinalize(s'.(pendingChunkQueue := s.pendingChunkQueue[1..]), [ToWrite(s.pendingChunkQueue[0])])
  }

  function OnComplete(s: Receiving, tid: seq<Byte>, sha: Digest): Reaction {
    if tid != s.tid then Going(s, [])
    else if s.networkReceivedBytes < s.expectedSize then Aborted(EarlyComplete)
    else MaybeFinalize(s.(senderSha256 := Some(sha)), [])
  }

  predicate DoneMatches(s: Receiving, digest: Digest, bytesWritten: nat, fileSize: nat) {
    && s.senderSha256 == Some(digest)
    && bytesWritten == s.expectedSize
    && fileSize == s.expectedSize
  }

  // ---- the handlers in place ------------------------------------------------------------------------

  class FileReceiver {
    var tid: seq<Byte>
    var expectedSize: nat
    var nextExpectedSeq: nat
    var networkReceivedBytes: nat
    var bytesWritten: nat
    var receiveCredit: nat
    var pendingChunkQueue: seq<Piece>
    var senderSha256: Option<Digest>
    var finalizeRequested: bool
    var posted: seq<WorkerIn>

    ghost function View(): Receiving
      reads this
    {
      Receiving(tid, expectedSize, nextExpectedSeq, networkReceivedBytes, bytesWritten, receiveCredit,
                pendingChunkQueue, senderSha256, finalizeRequested)
    }

    constructor (tid: seq<Byte>, size: nat)
      ensures View() == BeginReceiving(tid, size) && posted == []
    {
      this.tid := tid;
      expectedSize := size;
      nextExpectedSeq, networkReceivedBytes, bytesWritten := 0, 0, 0;
      receiveCredit := RECV_INITIAL_CREDIT;
      pendingChunkQueue := [];
      senderSha256 := None;
      finalizeRequested := false;
      posted := [];
    }

    /** Posting a chunk uses a credit; `postMessage` is taken not to throw. */
    method PostChunkToWorker(piece: Piece)
      requires receiveCredit > 0
      modifies this
      ensures View() == old(View()).(receiveCredit := old(receiveCredit) - 1)
      ensures posted == old(posted) + [ToWrite(piece)]
    {
      posted := posted + [ToWrite(piece)];
      receiveCredit := receiveCredit - 1;
    }

    method FinalizeIfDue()
      modifies this
      ensures var r := MaybeFinalize(old(View()), []);
              View() == r.state && posted == old(posted) + r.posts
    {
      if finalizeRequested || senderSha256.None? || |pendingChunkQueue| > 0 || bytesWritten < expectedSize {
        return;
      }
      finalizeRequested := true;
      posted := posted + [Finalize];
    }

    method DispatchChunk(c: ChunkPlaintext) returns (abort: Option<AbortReason>)
      modifies this
      ensures var r := OnChunk(old(View()), c);
              match r
              case Aborted(reason) => abort == Some(reason) && View() == old(View()) && posted == old(posted)
              case Going(s, posts) => abort == None && View() == s && posted == old(posted) + posts
    {
      abort := None;
      if c.tid != tid {
        return;
      }
      var totalChunks := TotalChunks(expectedSize);
      var expectedLen := ExpectedChunkLen(expectedSize, c.seqNo, totalChunks);
      if c.seqNo != nextExpectedSeq || c.seqNo >= totalChunks || |c.data| != expectedLen {
        return Some(BadChunk);
      }
      if |pendingChunkQueue| >= RECV_PENDING_HARD_CAP_CHUNKS {
        return Some(QueueFull);
      }
      nextExpectedSeq := nextExpectedSeq + 1;
      networkReceivedBytes := networkReceivedBytes + |c.data|;
      if receiveCredit > 0 {
        PostChunkToWorker(Piece(c.seqNo, c.data));
      } else {
        pendingChunkQueue := pendingChunkQueue + [Piece(c.seqNo, c.data)];
      }
    }

    method HandleWorkerWritten(bytes: nat)
      modifies this
      ensures var r := OnWritten(old(View()), bytes); View() == r.state && posted == old(posted) + r.posts
    {
      bytesWritten := bytesWritten + bytes;
      receiveCredit := receiveCredit + 1;
      if pendingChunkQueue != [] {
        var next := pendingChunkQueue[0];
        pendingChunkQueue := pendingChunkQueue[1..];
        PostChunkToWorker(next);
      }
      FinalizeIfDue();
    }

    method DispatchComplete(tid: seq<Byte>, sha: Digest) returns (abort: Option<AbortReason>)
      modifies this
      ensures var r := OnComplete(old(View()), tid, sha);
              match r
              case Aborted(reason) => abort == Some(reason) && View() == old(View()) && posted == old(posted)
              case Going(s, posts) => abort == None && View() == s && posted == old(posted) + posts
    {
      abort := None;
      if tid != this.tid {
        return;
      }
      if networkReceivedBytes < expectedSize {
        return Some(EarlyComplete);
      }
      senderSha256 := Some(sha);
      FinalizeIfDue();
    }
  }

  // ---- page and worker together -----------------------------------------------------------------------

  /** `write` at an offset: bytes beyond the end are zero-filled, bytes inside are overwritten. */
  function WriteAt(file: seq<Byte>, at: nat, data: seq<Byte>): seq<Byte> {
    var before := if at <= |file| then file[..at] else file + seq(at - |file|, _ => 0);
    before + data + (if at + |data| < |file| then file[at + |data|..] else [])
  }

  datatype Sink = Sink(
    main: Option<Receiving>,
    abort: Option<AbortReason>,
    inbox: seq<WorkerIn>,
    file: seq<Byte>,
    hashed: seq<Byte>,
    written: nat,
    wrote: nat,
    reports: seq<Report>,
    broken: bool,
    finalizes: nat,
    attachment: Option<seq<Byte>>)

  datatype Input =
    | ChunkArrives(plaintext: seq<Byte>)
    | CompleteArrives(tid: seq<Byte>, sha: Digest)
    | WorkerRuns
    | WorkerBreaks
    | ReportArrives
    | CancelArrives

  function NewSink(tid: seq<Byte>, size: nat): Sink {
    Sink(Some(BeginReceiving(tid, size)), None, [], [], [], 0, 0, [], false, 0, None)
  }

  function React(k: Sink, r: Reaction): Sink {
    match r
    case Aborted(reason) => k.(main := None, abort := Some(reason))
    case Going(s, posts) =>
      k.(main := Some(s), inbox := k.inbox + posts, finalizes := k.finalizes + (if Finalize in posts then 1 else 0))
  }

  /** The worker takes its next message. */
  function WorkerStep(k: Sink): Sink
    requires k.inbox != []
  {
    var k' := k.(inbox := k.inbox[1..]);
    match k.inbox[0]
    case ToWrite(piece) =>
      k'.(file := WriteAt(k.file, piece.seqNo * CHUNK_DATA_MAX_BYTES, piece.data),
          hashed := k.hashed + piece.data,
          written := k.written + |piece.data|,
          wrote := k.wrote + 1,
          reports := k.reports + [Wrote(|piece.data|)])
    case Finalize => k'.(reports := k.reports + [Finished(k.hashed, k.written, |k.file|)])
  }

  /** The page takes the worker's next report; a finished file is recorded only if digest and sizes match. */
  function ReportStep(k: Sink): Sink
    requires k.reports != [] && k.main.Some?
  {
    var k' := k.(reports := k.reports[1..]);
    match k.reports[0]
    case Wrote(bytes) => React(k', OnWritten(k.main.value, bytes))
    case Finished(digest, bytesWritten, fileSize) =>
      if DoneMatches(k.main.value, digest, bytesWritten, fileSize)
      then k'.(main := None, attachment := Some(k.file))
      else k'.(main := None, abort := Some(IntegrityMismatch))
    case Failed => k'.(main := None, abort := Some(WorkerFailure))
  }

  function Feed(k: Sink, input: Input): Sink {
    if k.main.None? then k
    else
      var s := k.main.value;
      match input
      case ChunkArrives(plaintext) =>
        var parsed := ParseChunkPlaintext(plaintext);
        if parsed.None? then k.(main := None, abort := Some(Malformed)) else React(k, OnChunk(s, parsed.value))
      case CompleteArrives(tid, sha) => React(k, OnComplete(s, tid, sha))
      case WorkerRuns => if k.inbox == [] || k.broken then k else WorkerStep(k)
      case WorkerBreaks => if k.broken then k else k.(broken := true, reports := k.reports + [Failed])
      case ReportArrives => if k.reports == [] then k else ReportStep(k)
      case CancelArrives => k.(main := None, abort := Some(Cancelled))
  }

  function Receive(tid: seq<Byte>, size: nat, inputs: seq<Input>): Sink {
    if inputs == [] then NewSink(tid, size)
    else Feed(Receive(tid, size, inputs[..|inputs| - 1]), inputs[|inputs| - 1])
  }
}
