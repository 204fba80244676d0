/**
 A whole transfer between two honest pages over an in-order channel: send worker, sending page, network,
 receiving page and receive worker, interleaved in any way.
 */
module FileTransfer {
  import opened Bytes
  import opened FileChunks
  import opened FileReceive
  import opened FileReceiveSafety

  const INITIAL_CREDIT: nat := 4

  /** Messages from the send worker to its page. */
  datatype Mail = Cut(plaintext: seq<Byte>) | Final(sha: Digest)

  datatype Packet = ChunkPacket(plaintext: seq<Byte>) | CompletePacket(sha: Digest)

  datatype Source = Source(
    parts: seq<seq<Byte>>,
    tail: seq<Byte>,
    ready: seq<seq<Byte>>,
    eof: bool,
    credit: nat,
    seqNo: nat,
    hashed: seq<Byte>,
    finalPosted: bool)

  datatype System = System(
    tid: seq<Byte>,
    src: Source,
    mail: seq<Mail>,
    queue: seq<seq<Byte>>,
    final: Option<Digest>,
    completed: bool,
    pulls: nat,
    sent: nat,
    net: seq<Packet>,
    delivered: nat,
    completeDelivered: bool,
    sink: Sink)

  datatype Event =
    | SourceReads
    | SourceEmits
    | SourceFinishes
    | PullArrives
    | MainTakes
    | MainSends
    | MainCompletes
    | NetDelivers
    | SinkRuns(input: Input)

  function Begin(tid: seq<Byte>, parts: seq<seq<Byte>>, size: nat): System {
    System(tid, Source(parts, [], [], false, INITIAL_CREDIT, 0, [], false),
           [], [], None, false, 0, 0, [], 0, false, NewSink(tid, size))
  }

  /** The worker reads on only when every piece it has cut is out. */
  function ReadMore(x: Source): Source {
    if x.eof || x.ready != [] then x
    else if x.parts == [] then x.(eof := true, ready := Chunks(x.tail), tail := [])
    else
      var combined := x.tail + x.parts[0];
      x.(parts := x.parts[1..], ready := FullPieces(combined), tail := Rest(combined))
  }

  function EmitPiece(y: System): System {
    var x := y.src;
    if x.ready == [] || x.credit == 0 then y
    else
      y.(src := x.(ready := x.ready[1..], credit := x.credit - 1, seqNo := x.seqNo + 1, hashed := x.hashed + x.ready[0]),
         mail := y.mail + [Cut(BuildChunkPlaintext(y.tid, x.seqNo, x.ready[0]))])
  }

  function Finish(y: System): System {
    if !y.src.eof || y.src.ready != [] || y.src.finalPosted then y
    else y.(src := y.src.(finalPosted := true), mail := y.mail + [Final(y.src.hashed)])
  }

  function TakeMail(y: System): System {
    if y.mail == [] then y
    else
      var y' := y.(mail := y.mail[1..]);
      match y.mail[0]
      case Cut(plaintext) => y'.(queue := y.queue + [plaintext])
      case Final(sha) => y'.(final := Some(sha))
  }

  /** One turn of the send loop that finds a chunk; a pull goes out unless the worker is finished. */
  function SendChunk(y: System): System {
    if y.queue == [] || y.completed then y
    else y.(queue := y.queue[1..], net := y.net + [ChunkPacket(y.queue[0])], sent := y.sent + 1,
            pulls := if y.final.None? then y.pulls + 1 else y.pulls)
  }

  function Complete(y: System): System {
    if y.queue != [] || y.final.None? || y.completed then y
    else y.(net := y.net + [CompletePacket(y.final.value)], completed := true)
  }

  function Deliver(y: System): System {
    if y.net == [] then y
    else
      var y' := y.(net := y.net[1..]);
      match y.net[0]
      case ChunkPacket(plaintext) =>
        y'.(delivered := y.delivered + 1, sink := Feed(y.sink, ChunkArrives(plaintext)))
      case CompletePacket(sha) =>
        y'.(completeDelivered := true, sink := Feed(y.sink, CompleteArrives(y.tid, sha)))
  }

  function Step(y: System, ev: Event): System {
    match ev
    case SourceReads => y.(src := ReadMore(y.src))
    case SourceEmits => EmitPiece(y)
    case SourceFinishes => Finish(y)
    case PullArrives => if y.pulls == 0 then y else y.(pulls := y.pulls - 1, src := y.src.(credit := y.src.credit + 1))
    case MainTakes => TakeMail(y)
    case MainSends => SendChunk(y)
    case MainCompletes => Complete(y)
    case NetDelivers => Deliver(y)
    case SinkRuns(input) =>
      if input.WorkerRuns? || input.WorkerBreaks? || input.ReportArrives? then y.(sink := Feed(y.sink, input)) else y
  }

  function Run(tid: seq<Byte>, parts: seq<seq<Byte>>, events: seq<Event>): System {
    if events == [] then Begin(tid, parts, |Flatten(parts)|)
    else Step(Run(tid, parts, events[..|events| - 1]), events[|events| - 1])
  }

  // ---- where every chunk is -------------------------------------------------------------------------------

  /** The wire form of chunk `k` of `file`. */
  function Wire(tid: seq<Byte>, file: seq<Byte>, k: nat): seq<Byte>
    requires k < |Chunks(file)|
  {
    BuildChunkPlaintext(tid, k, Chunks(file)[k])
  }

  ghost predicate SourceOk(x: Source, file: seq<Byte>) {
    && x.seqNo <= |Chunks(file)|
    && Chunks(file)[x.seqNo..] == x.ready + (if x.eof then [] else Chunks(x.tail + Flatten(x.parts)))
    && x.hashed == Flatten(Chunks(file)[..x.seqNo])
    && (x.finalPosted ==> x.seqNo == |Chunks(file)|)
  }

  /** The mail holds the chunks after the queue's, then possibly the final digest. */
  ghost predicate MailOk(y: System, file: seq<Byte>) {
    var base := y.sent + |y.queue|;
    && base <= y.src.seqNo <= |Chunks(file)|
    && |y.mail| == y.src.seqNo - base + (if y.src.finalPosted && y.final.None? then 1 else 0)
    && (forall i :: 0 <= i < |y.mail| ==>
          y.mail[i] == if base + i < y.src.seqNo then Cut(Wire(y.tid, file, base + i)) else Final(file))
    && (y.src.finalPosted ==> y.src.seqNo == |Chunks(file)|)
    && (y.final.Some? ==> y.final.value == file && y.src.finalPosted && base == y.src.seqNo)
  }

  ghost predicate QueueOk(y: System, file: seq<Byte>) {
    && y.sent + |y.queue| <= |Chunks(file)|
    && (forall i :: 0 <= i < |y.queue| ==> y.queue[i] == Wire(y.tid, file, y.sent + i))
    && (y.completed ==> y.final.Some? && y.sent == |Chunks(file)|)
  }

  ghost predicate NetOk(y: System, file: seq<Byte>) {
    && y.delivered <= y.sent <= |Chunks(file)|
    && |y.net| == y.sent - y.delivered + (if y.completed && !y.completeDelivered then 1 else 0)
    && (forall i :: 0 <= i < |y.net| ==>
          y.net[i] == if y.delivered + i < y.sent then ChunkPacket(Wire(y.tid, file, y.delivered + i))
                      else CompletePacket(file))
    && (y.completeDelivered ==> y.completed && y.delivered == y.sent)
  }

  /** What the receiver holds are the sender's chunks. */
  ghost predicate ContentOk(k: Sink, tid: seq<Byte>, delivered: nat, file: seq<Byte>) {
    && SinkOk(k)
    && (k.main.Some? ==>
          var s := k.main.value;
          && s.tid == tid && s.expectedSize == |file|
          && s.nextExpectedSeq == delivered
          && k.wrote <= |Chunks(file)|
          && k.hashed == Flatten(Chunks(file)[..k.wrote])
          && (forall i :: 0 <= i < |Unwritten(k)| ==>
                && Unwritten(k)[i].seqNo < |Chunks(file)|
                && Unwritten(k)[i].data == Chunks(file)[Unwritten(k)[i].seqNo])
          && (s.senderSha256.Some? ==> s.senderSha256.value == file))
    && (k.attachment.Some? ==> k.attachment.value == file)
    && (k.abort.Some? ==> k.abort.value == QueueFull || k.abort.value == WorkerFailure)
  }

  /** At most four chunks are cut but not yet sent. */
  ghost predicate CreditOk(y: System) {
    && y.src.credit + y.pulls + (y.src.seqNo - y.sent) <= INITIAL_CREDIT
    && (y.final.None? ==> y.src.credit + y.pulls + (y.src.seqNo - y.sent) == INITIAL_CREDIT)
  }

  /** Finalizing is requested as soon as it is due, and a transfer that is over has an outcome. */
  ghost predicate Prompt(k: Sink, announced: bool) {
    && (k.main.Some? ==>
          var s := k.main.value;
          && (announced ==> s.senderSha256.Some?)
          && (s.senderSha256.Some? && s.pendingChunkQueue == [] && s.bytesWritten >= s.expectedSize
              ==> s.finalizeRequested))
    && (k.main.None? ==> k.abort.Some? || k.attachment.Some?)
  }

  ghost predicate SystemOk(y: System, file: seq<Byte>) {
    && |y.tid| == TID_BYTES
    && SourceOk(y.src, file)
    && MailOk(y, file)
    && QueueOk(y, file)
    && NetOk(y, file)
    && ContentOk(y.sink, y.tid, y.delivered, file)
    && CreditOk(y)
    && Prompt(y.sink, y.completeDelivered)
  }

  lemma BeginOk(tid: seq<Byte>, parts: seq<seq<Byte>>, file: seq<Byte>)
    requires |tid| == TID_BYTES && Flatten(parts) == file != []
    ensures SystemOk(Begin(tid, parts, |file|), file)
  {
    var y := Begin(tid, parts, |file|);
    assert [] + Flatten(parts) == file;
    assert Unwritten(y.sink) == [];
    NewSinkOk(tid, |file|);
    assert Chunks(file)[0..] == [] + Chunks(file);
  }

  lemma ReadKept(y: System, file: seq<Byte>)
    requires SystemOk(y, file)
    ensures SystemOk(Step(y, SourceReads), file)
  {
    hide ContentOk, SourceOk, Chunks;
    SourceReadKept(y.src, file);
  }

  lemma SourceReadKept(x: Source, file: seq<Byte>)
    requires SourceOk(x, file)
    ensures SourceOk(ReadMore(x), file)
  {
    if !x.eof && x.ready == [] {
      if x.parts == [] {
        assert x.tail + Flatten(x.parts) == x.tail;
      } else {
        ChunksSplit(x.tail + x.parts[0], Flatten(x.parts[1..]));
        assert x.tail + x.parts[0] + Flatten(x.parts[1..]) == x.tail + Flatten(x.parts);
      }
    }
  }

  lemma SourceEmitKept(x: Source, file: seq<Byte>)
    requires SourceOk(x, file) && x.ready != [] && x.credit > 0
    ensures SourceOk(x.(ready := x.ready[1..], credit := x.credit - 1, seqNo := x.seqNo + 1,
                        hashed := x.hashed + x.ready[0]), file)
    ensures x.seqNo < |Chunks(file)| && Chunks(file)[x.seqNo] == x.ready[0] && !x.finalPosted
  {
    hide Chunks;
    assert Chunks(file)[x.seqNo] == Chunks(file)[x.seqNo..][0] == x.ready[0];
    assert Chunks(file)[x.seqNo + 1..] == Chunks(file)[x.seqNo..][1..];
    assert Chunks(file)[..x.seqNo + 1] == Chunks(file)[..x.seqNo] + [x.ready[0]];
    FlattenAppend(Chunks(file)[..x.seqNo], [x.ready[0]]);
    assert Flatten([x.ready[0]]) == x.ready[0];
  }

  lemma EmitKept(y: System, file: seq<Byte>)
    requires SystemOk(y, file)
    ensures SystemOk(EmitPiece(y), file)
  {
    hide ContentOk, SourceOk, Chunks;
    if y.src.ready != [] && y.src.credit > 0 {
      SourceEmitKept(y.src, file);
      assert MailOk(EmitPiece(y), file);
    }
  }

  /** A source at its end with nothing left to emit has emitted, and hashed, the whole file. */
  lemma SourceIsDone(x: Source, file: seq<Byte>)
    requires SourceOk(x, file) && x.eof && x.ready == []
    ensures x.seqNo == |Chunks(file)| && x.hashed == file
    ensures SourceOk(x.(finalPosted := true), file)
  {
    hide Chunks;
    assert Chunks(file)[x.seqNo..] == [];
    assert Chunks(file)[..x.seqNo] == Chunks(file);
    ChunksOfFile(file);
    hide Flatten;
  }

  lemma FinishKept(y: System, file: seq<Byte>)
    requires SystemOk(y, file)
    ensures SystemOk(Finish(y), file)
  {
    hide ContentOk, Prompt, SinkOk, SourceOk, Chunks;
    var x := y.src;
    if x.eof && x.ready == [] && !x.finalPosted {
      SourceIsDone(x, file);
    }
  }

  lemma MailKept(y: System, file: seq<Byte>)
    requires SystemOk(y, file)
    ensures SystemOk(TakeMail(y), file)
  {
    hide ContentOk, SourceOk, Chunks;
  }

  lemma SendKept(y: System, file: seq<Byte>)
    requires SystemOk(y, file)
    ensures SystemOk(SendChunk(y), file)
  {
    hide ContentOk, SourceOk, Chunks;
  }

  lemma CompleteKept(y: System, file: seq<Byte>)
    requires SystemOk(y, file)
    ensures SystemOk(Complete(y), file)
  {
    hide ContentOk, SourceOk, Chunks;
  }

  // ---- what the receiver does with it ---------------------------------------------------------------------

  lemma FewChunks(file: seq<Byte>)
    requires |file| <= MAX_FILE_SIZE_BYTES
    ensures |Chunks(file)| < 0x1_0000_0000
  {
    ChunksOfFile(file);
  }

  /** A chunk from the sender is always the one the receiver expects. */
  lemma ChunkContent(k: Sink, tid: seq<Byte>, d: nat, file: seq<Byte>)
    requires ContentOk(k, tid, d, file) && |tid| == TID_BYTES && d < |Chunks(file)|
    requires 0 < |file| <= MAX_FILE_SIZE_BYTES
    ensures ContentOk(Feed(k, ChunkArrives(Wire(tid, file, d))), tid, d + 1, file)
  {
    hide Chunks, TotalChunks, ExpectedChunkLen, BuildChunkPlaintext, ParseChunkPlaintext, InOrder, OnDisk, FinalizedOnce;
    var plaintext := Wire(tid, file, d);
    FeedKept(k, ChunkArrives(plaintext));
    if k.main.Some? {
      var s := k.main.value;
      FewChunks(file);
      ChunkRoundTrip(tid, d, Chunks(file)[d]);
      ChunksOfFile(file);
      var c := ChunkPlaintext(tid, d, Chunks(file)[d]);
      if OnChunk(s, c).Going? {
        ChunkInOrder(k, c);
      }
    }
  }

  /** When every chunk has arrived so has every byte. */
  lemma NotEarly(k: Sink, s: Receiving, file: seq<Byte>)
    requires k.main == Some(s) && SinkOk(k) && s.expectedSize == |file| && s.nextExpectedSeq == |Chunks(file)|
    ensures s.networkReceivedBytes == s.expectedSize
  {
    hide Chunks, TotalChunks, FinalizedOnce, OnDisk;
    ChunksOfFile(file);
    AllArrived(s.expectedSize, s.nextExpectedSeq);
  }

  lemma CompletingIs(k: Sink, s: Receiving, sha: Digest)
    requires k.main == Some(s) && s.networkReceivedBytes >= s.expectedSize
    ensures var s' := s.(senderSha256 := Some(sha));
      Feed(k, CompleteArrives(s.tid, sha)) == React(k.(main := Some(s')), MaybeFinalize(s', []))
  {
    hide MaybeFinalize;
  }

  lemma FinalizeKeepsContent(k: Sink, s: Receiving, tid: seq<Byte>, d: nat, file: seq<Byte>)
    requires k.main == Some(s)
    ensures var k' := React(k, MaybeFinalize(s, []));
      && k'.main.Some? && k'.wrote == k.wrote && k'.hashed == k.hashed && k'.attachment == k.attachment
      && k'.abort == k.abort && k'.main.value == s.(finalizeRequested := k'.main.value.finalizeRequested)
      && Unwritten(k') == Unwritten(k)
  {
    FinalizeKeepsUnwritten(k, s);
    hide Unwritten;
  }

  /** The end of the transfer is announced only after every chunk has arrived. */
  lemma CompleteContent(k: Sink, tid: seq<Byte>, file: seq<Byte>)
    requires ContentOk(k, tid, |Chunks(file)|, file) && file != []
    ensures ContentOk(Feed(k, CompleteArrives(tid, file)), tid, |Chunks(file)|, file)
  {
    hide Chunks, SinkOk, Feed, MaybeFinalize, React;
    FeedKept(k, CompleteArrives(tid, file));
    if k.main.Some? {
      var s := k.main.value;
      NotEarly(k, s, file);
      CompletingIs(k, s, file);
      var s' := s.(senderSha256 := Some(file));
      FinalizeKeepsContent(k.(main := Some(s')), s', tid, |Chunks(file)|, file);
      assert Unwritten(k.(main := Some(s'))) == Unwritten(k);
      hide Unwritten;
    } else {
      NothingToComplete(k, tid, file);
    }
  }

  lemma NothingToComplete(k: Sink, tid: seq<Byte>, sha: Digest)
    requires k.main.None?
    ensures Feed(k, CompleteArrives(tid, sha)) == k
  {
  }

  lemma WorkerContent(k: Sink, tid: seq<Byte>, d: nat, file: seq<Byte>)
    requires ContentOk(k, tid, d, file) && k.main.Some? && k.inbox != []
    ensures ContentOk(WorkerStep(k), tid, d, file)
  {
    hide Chunks, TotalChunks, ExpectedChunkLen, OnDisk, FinalizedOnce, Conserved;
    WorkerKept(k);
    var k' := WorkerStep(k);
    match k.inbox[0]
    case ToWrite(piece) =>
      assert Unwritten(k)[0] == piece;
      assert Unwritten(k') == Unwritten(k)[1..];
      assert Chunks(file)[..k.wrote + 1] == Chunks(file)[..k.wrote] + [piece.data];
      FlattenAppend(Chunks(file)[..k.wrote], [piece.data]);
      assert Flatten([piece.data]) == piece.data;
    case Finalize =>
      assert Unwritten(k') == Unwritten(k);
  }

  lemma WrittenContent(k: Sink, tid: seq<Byte>, d: nat, file: seq<Byte>)
    requires ContentOk(k, tid, d, file) && k.main.Some? && k.reports != [] && k.reports[0].Wrote?
    ensures ContentOk(ReportStep(k), tid, d, file)
  {
    WrittenKept(k);
    WrittenKeepsUnwritten(k, k.main.value);
  }

  lemma WrittenKeepsUnwritten(k: Sink, s: Receiving)
    requires k.main == Some(s) && k.reports != [] && k.reports[0].Wrote?
    ensures ReportStep(k).main.Some? && Unwritten(ReportStep(k)) == Unwritten(k)
  {
    if s.pendingChunkQueue == [] {
      var s2 := s.(bytesWritten := s.bytesWritten + k.reports[0].bytes, receiveCredit := s.receiveCredit + 1);
      FinalizeKeepsUnwritten(k.(reports := k.reports[1..], main := Some(s2)), s2);
    } else {
      var piece := s.pendingChunkQueue[0];
      var s2 := s.(bytesWritten := s.bytesWritten + k.reports[0].bytes, pendingChunkQueue := s.pendingChunkQueue[1..]);
      var k2 := k.(reports := k.reports[1..], main := Some(s2), inbox := k.inbox + [ToWrite(piece)]);
      PostThenFinalize(k, s, k2, s2);
      FinalizeKeepsUnwritten(k2, s2);
      PiecesAppend(k.inbox, [ToWrite(piece)]);
      assert Pieces([ToWrite(piece)]) == [piece];
      assert Unwritten(k2) == Unwritten(k);
    }
  }

  lemma FinalizeKeepsUnwritten(k: Sink, s: Receiving)
    requires k.main == Some(s)
    ensures Unwritten(React(k, MaybeFinalize(s, []))) == Unwritten(k)
  {
    PiecesAppend(k.inbox, [Finalize]);
    assert Pieces([Finalize]) == [];
    assert k.inbox + [] == k.inbox;
    assert [] + [Finalize] == [Finalize];
  }

  /** A finished file passes the digest and size checks, and it is the sender's file. */
  lemma FinishedContent(k: Sink, tid: seq<Byte>, d: nat, file: seq<Byte>)
    requires ContentOk(k, tid, d, file) && k.main.Some? && k.reports != [] && k.reports[0].Finished?
    requires file != []
    ensures ContentOk(ReportStep(k), tid, d, file) && ReportStep(k).attachment == Some(file)
  {
    var s := k.main.value;
    var report := k.reports[0];
    assert report in k.reports;
    ChunksOfFile(file);
    AllArrived(s.expectedSize, k.wrote) by {
      assert k.wrote <= TotalChunks(s.expectedSize);
    }
    assert k.written == s.expectedSize;
    assert Chunks(file)[..k.wrote] == Chunks(file);
    assert k.hashed == file;
  }

  lemma RunsContent(k: Sink, tid: seq<Byte>, d: nat, file: seq<Byte>, input: Input)
    requires ContentOk(k, tid, d, file) && file != []
    requires input.WorkerRuns? || input.WorkerBreaks? || input.ReportArrives?
    ensures ContentOk(Feed(k, input), tid, d, file)
  {
    hide InOrder, Conserved, FinalizedOnce, OnDisk;
    FeedKept(k, input);
    if k.main.Some? {
      match input
      case WorkerRuns =>
        if k.inbox != [] && !k.broken {
          WorkerContent(k, tid, d, file);
        }
      case WorkerBreaks =>
        assert Unwritten(Feed(k, input)) == Unwritten(k);
      case ReportArrives =>
        if k.reports != [] && k.reports[0].Wrote? {
          WrittenContent(k, tid, d, file);
        } else if k.reports != [] && k.reports[0].Finished? {
          FinishedContent(k, tid, d, file);
        }
    }
  }

  lemma PromptFeed(k: Sink, announced: bool, input: Input)
    requires Prompt(k, announced) && SinkOk(k)
    ensures Prompt(Feed(k, input), announced)
  {
    hide InOrder, Conserved, FinalizedOnce, OnDisk;
    if k.main.Some? {
      match input
      case ChunkArrives(plaintext) =>
        if ParseChunkPlaintext(plaintext).Some? {
          PromptChunk(k, announced, ParseChunkPlaintext(plaintext).value);
        }
      case _ =>
    }
  }

  lemma PromptComplete(k: Sink, announced: bool, tid: seq<Byte>, sha: Digest)
    requires Prompt(k, announced) && (k.main.Some? ==> k.main.value.tid == tid)
    ensures Prompt(Feed(k, CompleteArrives(tid, sha)), true)
  {
  }

  lemma PromptChunk(k: Sink, announced: bool, c: ChunkPlaintext)
    requires Prompt(k, announced) && SinkOk(k) && k.main.Some?
    ensures Prompt(React(k, OnChunk(k.main.value, c)), announced)
  {
    var s := k.main.value;
    if OnChunk(s, c).Going? && c.tid == s.tid {
      AllArrived(s.expectedSize, s.nextExpectedSeq);
    }
  }

  lemma DeliverKept(y: System, file: seq<Byte>)
    requires SystemOk(y, file) && 0 < |file| <= MAX_FILE_SIZE_BYTES
    ensures SystemOk(Deliver(y), file)
  {
    hide ContentOk, SourceOk, Chunks, SinkOk, Feed;
    ContentIsSinkOk(y.sink, y.tid, y.delivered, file);
    if y.net != [] {
      if y.delivered < y.sent {
        assert y.net[0] == ChunkPacket(Wire(y.tid, file, y.delivered));
        ChunkContent(y.sink, y.tid, y.delivered, file);
        PromptFeed(y.sink, y.completeDelivered, ChunkArrives(Wire(y.tid, file, y.delivered)));
      } else {
        assert y.net[0] == CompletePacket(file);
        CompleteContent(y.sink, y.tid, file);
        PromptComplete(y.sink, y.completeDelivered, y.tid, file);
      }
    }
  }

  lemma SinkKept(y: System, file: seq<Byte>, input: Input)
    requires SystemOk(y, file) && 0 < |file| <= MAX_FILE_SIZE_BYTES
    ensures SystemOk(Step(y, SinkRuns(input)), file)
  {
    hide ContentOk, SourceOk, Chunks, Feed, Prompt, SinkOk;
    if input.WorkerRuns? || input.WorkerBreaks? || input.ReportArrives? {
      RunsContent(y.sink, y.tid, y.delivered, file, input);
      ContentIsSinkOk(y.sink, y.tid, y.delivered, file);
      PromptFeed(y.sink, y.completeDelivered, input);
    }
  }

  lemma StepKept(y: System, file: seq<Byte>, ev: Event)
    requires SystemOk(y, file) && 0 < |file| <= MAX_FILE_SIZE_BYTES
    ensures SystemOk(Step(y, ev), file)
  {
    hide SystemOk;
    match ev
    case SourceReads => ReadKept(y, file);
    case SourceEmits => EmitKept(y, file);
    case SourceFinishes => FinishKept(y, file);
    case PullArrives => PullKept(y, file);
    case MainTakes => MailKept(y, file);
    case MainSends => SendKept(y, file);
    case MainCompletes => CompleteKept(y, file);
    case NetDelivers => DeliverKept(y, file);
    case SinkRuns(input) => SinkKept(y, file, input);
  }

  lemma ContentIsSinkOk(k: Sink, tid: seq<Byte>, d: nat, file: seq<Byte>)
    requires ContentOk(k, tid, d, file)
    ensures SinkOk(k)
    ensures k.main.Some? ==> k.main.value.tid == tid && k.main.value.expectedSize == |file|
    ensures k.main.Some? ==> k.main.value.nextExpectedSeq == d
  {
  }

  lemma PullKept(y: System, file: seq<Byte>)
    requires SystemOk(y, file)
    ensures SystemOk(Step(y, PullArrives), file)
  {
    hide ContentOk, Chunks;
  }

  lemma {:induction false} RunKept(tid: seq<Byte>, parts: seq<seq<Byte>>, events: seq<Event>)
    requires |tid| == TID_BYTES && 0 < |Flatten(parts)| <= MAX_FILE_SIZE_BYTES
    ensures SystemOk(Run(tid, parts, events), Flatten(parts))
  {
    if events == [] {
      BeginOk(tid, parts, Flatten(parts));
    } else {
      RunKept(tid, parts, events[..|events| - 1]);
      StepKept(Run(tid, parts, events[..|events| - 1]), Flatten(parts), events[|events| - 1]);
    }
  }

  /**
   For any file of 1 byte to 100 MiB, any way its stream is split and any interleaving of the two workers, the two
   pages and the channel: a recorded attachment is the sender's file, byte for byte; the transfer never
   aborts on a sequence number, a length, an early completion or a digest; and the send worker is never more
   than four chunks ahead of the wire.
   */
  lemma TransferDeliversTheFile(tid: seq<Byte>, parts: seq<seq<Byte>>, events: seq<Event>)
    requires |tid| == TID_BYTES && 0 < |Flatten(parts)| <= MAX_FILE_SIZE_BYTES
    ensures var y := Run(tid, parts, events);
            && (y.sink.attachment.Some? ==> y.sink.attachment.value == Flatten(parts))
            && (y.sink.abort.Some? ==> y.sink.abort.value == QueueFull || y.sink.abort.value == WorkerFailure)
            && y.sent <= y.src.seqNo <= y.sent + 4
  {
    RunKept(tid, parts, events);
  }

  /** Chunks that have arrived and whose write reports the receiving page has not yet taken. */
  function Untaken(k: Sink): nat
    requires k.main.Some?
  {
    |Unwritten(k)| + ReportedPieces(k.reports)
  }

  ghost predicate StillReceiving(y: System) {
    y.sink.main.Some? && y.sink.abort.None?
  }

  /** A chunk is delivered on top of 36 whose reports have not been taken. */
  ghost predicate OneTooMany(y: System, ev: Event)
    requires StillReceiving(y)
  {
    ev.NetDelivers? && y.net != [] && y.net[0].ChunkPacket? && Untaken(y.sink) == 36
  }

  lemma WireFits(k: Sink, tid: seq<Byte>, d: nat, file: seq<Byte>)
    requires |tid| == TID_BYTES && 0 < |file| <= MAX_FILE_SIZE_BYTES && d < |Chunks(file)|
    requires k.main.Some? && k.main.value.tid == tid && k.main.value.expectedSize == |file|
    requires k.main.value.nextExpectedSeq == d
    ensures Feed(k, ChunkArrives(Wire(tid, file, d))).abort ==
      if |k.main.value.pendingChunkQueue| >= RECV_PENDING_HARD_CAP_CHUNKS then Some(QueueFull) else k.abort
  {
    ChunksOfFile(file);
    FewChunks(file);
    ChunkRoundTrip(tid, d, Chunks(file)[d]);
  }

  lemma FullIsThirtySix(k: Sink)
    requires SinkOk(k) && k.main.Some?
    ensures |k.main.value.pendingChunkQueue| >= RECV_PENDING_HARD_CAP_CHUNKS <==>
      Untaken(k) == RECV_INITIAL_CREDIT + RECV_PENDING_HARD_CAP_CHUNKS
  {
    hide InOrder, FinalizedOnce, OnDisk;
  }

  lemma OnlyChunksFillTheQueue(k: Sink, input: Input)
    requires k.main.Some? && k.abort.None? && !input.ChunkArrives?
    ensures Feed(k, input).abort != Some(QueueFull)
  {
  }

  /**
   When the receiver's queue overflows: exactly when a chunk is delivered while 36 others have arrived whose write
   reports the page has not taken, four with the worker and 32 queued.
   */
  lemma QueueFullExactly(tid: seq<Byte>, parts: seq<seq<Byte>>, events: seq<Event>, ev: Event)
    requires |tid| == TID_BYTES && 0 < |Flatten(parts)| <= MAX_FILE_SIZE_BYTES
    requires StillReceiving(Run(tid, parts, events))
    ensures Step(Run(tid, parts, events), ev).sink.abort == Some(QueueFull) <==>
      OneTooMany(Run(tid, parts, events), ev)
  {
    RunKept(tid, parts, events);
    var y := Run(tid, parts, events);
    var file := Flatten(parts);
    hide Chunks, Feed, SourceOk, Run;
    assert SystemOk(y, file);
    ContentIsSinkOk(y.sink, y.tid, y.delivered, file);
    FullIsThirtySix(y.sink);
    match ev
    case NetDelivers =>
      if y.net != [] {
        if y.delivered < y.sent {
          assert y.net[0] == ChunkPacket(Wire(y.tid, file, y.delivered));
          WireFits(y.sink, y.tid, y.delivered, file);
        } else {
          assert y.net[0] == CompletePacket(file);
          OnlyChunksFillTheQueue(y.sink, CompleteArrives(y.tid, file));
        }
      }
    case SinkRuns(input) =>
      if !input.ChunkArrives? {
        OnlyChunksFillTheQueue(y.sink, input);
      }
    case _ =>
  }

  /** Nothing is left to do: apart from a worker failure no event changes the system. */
  ghost predicate Quiet(y: System) {
    && !y.sink.broken
    && forall ev :: ev != SinkRuns(WorkerBreaks) ==> Step(y, ev) == y
  }

  /** A transfer that has come to rest without an abort has delivered the file: nothing gets stuck. */
  lemma QuietTransferIsDone(tid: seq<Byte>, parts: seq<seq<Byte>>, events: seq<Event>)
    requires |tid| == TID_BYTES && 0 < |Flatten(parts)| <= MAX_FILE_SIZE_BYTES
    requires Quiet(Run(tid, parts, events)) && Run(tid, parts, events).sink.abort.None?
    ensures Run(tid, parts, events).sink.attachment == Some(Flatten(parts))
  {
    RunKept(tid, parts, events);
    var y := Run(tid, parts, events);
    var file := Flatten(parts);
    QuietSender(y, file);
    QuietReceiver(y, file);
  }

  lemma QuietSender(y: System, file: seq<Byte>)
    requires SystemOk(y, file) && Quiet(y)
    ensures y.completeDelivered && y.delivered == |Chunks(file)|
  {
    hide ContentOk, Chunks, Prompt, Feed;
    assert Step(y, NetDelivers) == y;
    assert y.net == [];
    assert Step(y, MainTakes) == y;
    assert y.mail == [];
    assert Step(y, MainSends) == y;
    assert y.queue == [];
    assert Step(y, PullArrives) == y;
    assert Step(y, SourceEmits) == y;
    assert Step(y, SourceReads) == y;
    assert Step(y, SourceFinishes) == y;
    assert Step(y, MainCompletes) == y;
  }

  lemma QuietReceiver(y: System, file: seq<Byte>)
    requires SystemOk(y, file) && Quiet(y) && file != []
    requires y.completeDelivered && y.delivered == |Chunks(file)|
    ensures y.sink.main.None?
  {
    hide SourceOk, MailOk, QueueOk, NetOk, CreditOk, ReadMore, Chunks;
    assert Step(y, SinkRuns(WorkerRuns)) == y;
    assert Step(y, SinkRuns(ReportArrives)) == y;
    if y.sink.main.Some? {
      RunsChange(y.sink);
    }
    NothingLeft(y.sink, y.tid, file);
  }

  /** A receiver that has all chunks, the sender's digest and nothing in flight is not waiting any more. */
  lemma NothingLeft(k: Sink, tid: seq<Byte>, file: seq<Byte>)
    requires ContentOk(k, tid, |Chunks(file)|, file) && Prompt(k, true) && file != []
    requires k.main.Some? ==> k.inbox == [] && k.reports == []
    ensures k.main.None?
  {
    ChunksOfFile(file);
    AllArrived(|file|, |Chunks(file)|);
  }

  lemma RunsChange(k: Sink)
    requires k.main.Some? && !k.broken
    ensures k.inbox != [] ==> Feed(k, WorkerRuns).inbox == k.inbox[1..]
    ensures k.reports != [] ==> Feed(k, ReportArrives).reports == k.reports[1..]
  {
  }
}
