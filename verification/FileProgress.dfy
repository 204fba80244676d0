/**
 A transfer comes to an end: every step that changes anything brings it closer, so no interleaving goes on for ever;
 and as long as nothing has failed it can still be completed, whatever the interleaving so far.
 */
module FileProgress {
  import opened Bytes
  import opened FileChunks
  import opened FileReceive
  import opened FileReceiveSafety
  import opened FileTransfer

  // ---- what is left to do -----------------------------------------------------------------------------

  /** What the receiving page and its worker may still do: each weight exceeds what the step it stands for adds. */
  function SinkLeft(k: Sink): nat {
    (if k.main.Some? then
       3 * |k.main.value.pendingChunkQueue| + (if k.main.value.finalizeRequested then 0 else 3)
     else 0)
    + 2 * |k.inbox| + |k.reports| + (if k.broken then 0 else 2)
  }

  function SourceLeft(x: Source, chunks: nat): nat
    requires x.seqNo <= chunks
  {
    |x.parts| + (if x.eof then 0 else 1) + 8 * (chunks - x.seqNo) + (if x.finalPosted then 0 else 8)
  }

  /** What the whole system may still do for a file of `chunks` chunks. */
  function Left(y: System, chunks: nat): nat
    requires y.src.seqNo <= chunks
  {
    SourceLeft(y.src, chunks)
    + 7 * |y.mail| + 6 * |y.queue| + (if y.completed then 0 else 5) + y.pulls + 4 * |y.net|
    + SinkLeft(y.sink)
  }

  lemma FinalizeLeft(k: Sink, s: Receiving, posts: seq<WorkerIn>)
    ensures SinkLeft(React(k, MaybeFinalize(s, posts))) <= SinkLeft(React(k, Going(s, posts)))
  {
  }

  lemma ArrivalsLeft(k: Sink, input: Input)
    ensures input.ChunkArrives? ==> SinkLeft(Feed(k, input)) <= SinkLeft(k) + 3
    ensures input.CompleteArrives? ==> SinkLeft(Feed(k, input)) <= SinkLeft(k)
  {
    hide ParseChunkPlaintext, TotalChunks, ExpectedChunkLen;
    if k.main.Some? && input.CompleteArrives? && OnComplete(k.main.value, input.tid, input.sha).Going? {
      FinalizeLeft(k, k.main.value.(senderSha256 := Some(input.sha)), []);
    }
  }

  lemma WrittenLeft(k: Sink)
    requires k.main.Some? && k.reports != [] && k.reports[0].Wrote?
    ensures SinkLeft(ReportStep(k)) < SinkLeft(k)
  {
    var s := k.main.value;
    var bytes := k.reports[0].bytes;
    var k' := k.(reports := k.reports[1..]);
    var s' := s.(bytesWritten := s.bytesWritten + bytes);
    hide MaybeFinalize;
    if s.pendingChunkQueue == [] {
      FinalizeLeft(k', s'.(receiveCredit := s.receiveCredit + 1), []);
    } else {
      FinalizeLeft(k', s'.(pendingChunkQueue := s.pendingChunkQueue[1..]), [ToWrite(s.pendingChunkQueue[0])]);
    }
  }

  lemma RunsLeft(k: Sink, input: Input)
    requires input.WorkerRuns? || input.WorkerBreaks? || input.ReportArrives?
    ensures Feed(k, input) == k || SinkLeft(Feed(k, input)) < SinkLeft(k)
  {
    hide OnWritten;
    if k.main.Some? && input.ReportArrives? && k.reports != [] && k.reports[0].Wrote? {
      WrittenLeft(k);
    }
  }

  lemma SourceShrinks(y: System, file: seq<Byte>, ev: Event)
    requires SystemOk(y, file) && (ev.SourceReads? || ev.SourceEmits? || ev.SourceFinishes?)
    ensures var y' := Step(y, ev);
      y' == y || (y'.src.seqNo <= |Chunks(file)| && Left(y', |Chunks(file)|) < Left(y, |Chunks(file)|))
  {
    hide ContentOk, MailOk, QueueOk, NetOk, Prompt, Chunks, SinkLeft;
    if ev.SourceEmits? && y.src.ready != [] && y.src.credit > 0 {
      SourceEmitKept(y.src, file);
    }
  }

  lemma MainShrinks(y: System, chunks: nat, ev: Event)
    requires y.src.seqNo <= chunks
    requires ev.PullArrives? || ev.MainTakes? || ev.MainSends? || ev.MainCompletes?
    ensures var y' := Step(y, ev); y' == y || (y'.src.seqNo <= chunks && Left(y', chunks) < Left(y, chunks))
  {
    hide SinkLeft;
  }

  lemma DeliveryShrinks(y: System, chunks: nat)
    requires y.src.seqNo <= chunks
    ensures var y' := Deliver(y); y' == y || (y'.src == y.src && Left(y', chunks) < Left(y, chunks))
  {
    hide SinkLeft, Feed;
    if y.net != [] {
      match y.net[0]
      case ChunkPacket(plaintext) => ArrivalsLeft(y.sink, ChunkArrives(plaintext));
      case CompletePacket(sha) => ArrivalsLeft(y.sink, CompleteArrives(y.tid, sha));
    }
  }

  /** A step that changes anything leaves less to do. */
  lemma StepShrinks(y: System, file: seq<Byte>, ev: Event)
    requires SystemOk(y, file)
    ensures y.src.seqNo <= |Chunks(file)| && Step(y, ev).src.seqNo <= |Chunks(file)|
    ensures Step(y, ev) == y || Left(Step(y, ev), |Chunks(file)|) < Left(y, |Chunks(file)|)
  {
    hide MailOk, QueueOk, NetOk, ContentOk, CreditOk, Prompt, Feed, Chunks, SinkLeft, Deliver, ReadMore, EmitPiece, Finish;
    match ev
    case NetDelivers => DeliveryShrinks(y, |Chunks(file)|);
    case SinkRuns(input) =>
      if input.WorkerRuns? || input.WorkerBreaks? || input.ReportArrives? {
        RunsLeft(y.sink, input);
      }
    case SourceReads => SourceShrinks(y, file, ev);
    case SourceEmits => SourceShrinks(y, file, ev);
    case SourceFinishes => SourceShrinks(y, file, ev);
    case _ => MainShrinks(y, |Chunks(file)|, ev);
  }

  // ---- no run goes on for ever ----------------------------------------------------------------------------

  /** How many events of a run change anything. */
  function Changes(tid: seq<Byte>, parts: seq<seq<Byte>>, events: seq<Event>): nat {
    if events == [] then 0
    else
      Changes(tid, parts, events[..|events| - 1])
      + if Run(tid, parts, events) == Run(tid, parts, events[..|events| - 1]) then 0 else 1
  }

  lemma {:induction false} ChangesAreBounded(tid: seq<Byte>, parts: seq<seq<Byte>>, events: seq<Event>)
    requires |tid| == TID_BYTES && 0 < |Flatten(parts)| <= MAX_FILE_SIZE_BYTES
    ensures Run(tid, parts, events).src.seqNo <= |Chunks(Flatten(parts))|
    ensures Changes(tid, parts, events) + Left(Run(tid, parts, events), |Chunks(Flatten(parts))|)
            <= |parts| + 8 * |Chunks(Flatten(parts))| + 19
  {
    hide SystemOk, Step, Chunks, Flatten;
    if events == [] {
      hide Left, Begin;
      BeginLeft(tid, parts, |Chunks(Flatten(parts))|);
    } else {
      hide Left;
      ChangesAreBounded(tid, parts, events[..|events| - 1]);
      RunKept(tid, parts, events[..|events| - 1]);
      StepShrinks(Run(tid, parts, events[..|events| - 1]), Flatten(parts), events[|events| - 1]);
    }
  }

  lemma BeginLeft(tid: seq<Byte>, parts: seq<seq<Byte>>, chunks: nat)
    ensures var y := Begin(tid, parts, |Flatten(parts)|);
      y.src.seqNo <= chunks && Left(y, chunks) == |parts| + 8 * chunks + 19
  {
    hide Flatten;
  }

  /** Every run of a transfer has a bounded number of steps that change anything, worker failures included. */
  lemma EveryTransferEnds(tid: seq<Byte>, parts: seq<seq<Byte>>, events: seq<Event>)
    requires |tid| == TID_BYTES && 0 < |Flatten(parts)| <= MAX_FILE_SIZE_BYTES
    ensures Changes(tid, parts, events) <= |parts| + 8 * |Chunks(Flatten(parts))| + 19
  {
    hide Run, Chunks, Flatten, Changes, Left;
    ChangesAreBounded(tid, parts, events);
  }

  // ---- a transfer that has not failed can still be completed ------------------------------------------------

  /** Nothing has failed, and no failure is on its way to the page. */
  predicate Unfailed(k: Sink) {
    !k.broken && k.abort.None? && Failed !in k.reports
  }

  lemma UnbrokenReports(k: Sink, input: Input)
    requires !k.broken ==> Failed !in k.reports
    ensures !Feed(k, input).broken ==> !k.broken && Failed !in Feed(k, input).reports
  {
    hide ParseChunkPlaintext, OnChunk, OnComplete, OnWritten;
  }

  lemma {:induction false} RunUnbroken(tid: seq<Byte>, parts: seq<seq<Byte>>, events: seq<Event>)
    ensures var k := Run(tid, parts, events).sink; !k.broken ==> Failed !in k.reports
  {
    if events != [] {
      RunUnbroken(tid, parts, events[..|events| - 1]);
      var y := Run(tid, parts, events[..|events| - 1]);
      hide Run, Feed;
      match events[|events| - 1]
      case NetDelivers =>
        if y.net != [] {
          match y.net[0]
          case ChunkPacket(plaintext) => UnbrokenReports(y.sink, ChunkArrives(plaintext));
          case CompletePacket(sha) => UnbrokenReports(y.sink, CompleteArrives(y.tid, sha));
        }
      case SinkRuns(input) => UnbrokenReports(y.sink, input);
      case _ =>
    }
  }

  /** The receiving side has a step of its own to make. */
  predicate SinkBusy(k: Sink) {
    k.main.Some? && (k.inbox != [] || k.reports != [])
  }

  function SinkMove(k: Sink): Event {
    if k.reports != [] then SinkRuns(ReportArrives) else SinkRuns(WorkerRuns)
  }

  lemma BusyMoves(y: System, file: seq<Byte>)
    requires SystemOk(y, file) && file != [] && Unfailed(y.sink) && SinkBusy(y.sink)
    ensures var y' := Step(y, SinkMove(y.sink)); y' != y && Unfailed(y'.sink)
  {
    hide SourceOk, MailOk, QueueOk, NetOk, CreditOk, Chunks, Prompt, OnWritten, InOrder, Conserved, FinalizedOnce, OnDisk;
    RunsChange(y.sink);
    if y.sink.reports != [] && y.sink.reports[0].Finished? {
      FinishedContent(y.sink, y.tid, y.delivered, file);
    } else if y.sink.reports != [] {
      assert y.sink.reports[0].Wrote?;
      WrittenNeverAborts(y.sink);
    }
  }

  lemma WrittenNeverAborts(k: Sink)
    requires k.main.Some? && k.reports != [] && k.reports[0].Wrote?
    ensures ReportStep(k).abort == k.abort
  {
  }

  /** With the receiving side idle a delivery cannot overflow its queue. */
  lemma IdleHasRoom(k: Sink)
    requires SinkOk(k) && k.main.Some? && !SinkBusy(k)
    ensures k.main.value.pendingChunkQueue == []
  {
    hide InOrder, FinalizedOnce, OnDisk;
  }

  lemma IdleDelivers(y: System, file: seq<Byte>)
    requires SystemOk(y, file) && 0 < |file| <= MAX_FILE_SIZE_BYTES && Unfailed(y.sink) && !SinkBusy(y.sink)
    ensures Unfailed(Deliver(y).sink)
  {
    DeliverKept(y, file);
    hide SourceOk, MailOk, CreditOk, Chunks, Prompt, SinkOk, Feed;
    if y.net != [] && y.sink.main.Some? {
      ContentIsSinkOk(y.sink, y.tid, y.delivered, file);
      IdleHasRoom(y.sink);
      if y.delivered < y.sent {
        assert y.net[0] == ChunkPacket(Wire(y.tid, file, y.delivered));
        WireFits(y.sink, y.tid, y.delivered, file);
        ArrivalKeepsReports(y.sink, ChunkArrives(Wire(y.tid, file, y.delivered)));
      } else {
        assert y.net[0] == CompletePacket(file);
        ArrivalKeepsReports(y.sink, CompleteArrives(y.tid, file));
        OnlyChunksFillTheQueue(y.sink, CompleteArrives(y.tid, file));
      }
    } else if y.net != [] {
      EndedStays(y.sink);
    }
  }

  lemma ArrivalKeepsReports(k: Sink, input: Input)
    requires input.ChunkArrives? || input.CompleteArrives?
    ensures Feed(k, input).reports == k.reports && Feed(k, input).broken == k.broken
    ensures k.abort.None? ==> Feed(k, input).abort != Some(WorkerFailure)
  {
    hide ParseChunkPlaintext, TotalChunks, ExpectedChunkLen;
  }

  lemma EndedStays(k: Sink)
    requires k.main.None?
    ensures forall input :: Feed(k, input) == k
  {
  }

  /** An idle receiving side changes only by a worker failure. */
  lemma IdleStays(k: Sink, input: Input)
    requires !SinkBusy(k) && (input.WorkerRuns? || input.ReportArrives?)
    ensures Feed(k, input) == k
  {
  }

  /** Unless the system is quiet there is a step that changes it and lets nothing fail. */
  lemma NextStep(y: System, file: seq<Byte>) returns (ev: Event)
    requires SystemOk(y, file) && 0 < |file| <= MAX_FILE_SIZE_BYTES && Unfailed(y.sink) && !Quiet(y)
    ensures Step(y, ev) != y && Unfailed(Step(y, ev).sink)
  {
    hide SystemOk, Chunks, Feed, Deliver;
    if SinkBusy(y.sink) {
      ev := SinkMove(y.sink);
      BusyMoves(y, file);
    } else {
      ev :| ev != SinkRuns(WorkerBreaks) && Step(y, ev) != y;
      match ev
      case NetDelivers => IdleDelivers(y, file);
      case SinkRuns(input) =>
        if input.WorkerRuns? || input.ReportArrives? {
          IdleStays(y.sink, input);
        }
      case _ =>
    }
  }

  /** The run after `events` and `more` is quiet, with the file recorded. */
  ghost predicate Finishes(tid: seq<Byte>, parts: seq<seq<Byte>>, events: seq<Event>) {
    Quiet(Run(tid, parts, events)) && Run(tid, parts, events).sink.attachment == Some(Flatten(parts))
  }

  lemma {:induction false} Finishing(tid: seq<Byte>, parts: seq<seq<Byte>>, events: seq<Event>) returns (all: seq<Event>)
    requires |tid| == TID_BYTES && 0 < |Flatten(parts)| <= MAX_FILE_SIZE_BYTES
    requires Unfailed(Run(tid, parts, events).sink)
    requires Run(tid, parts, events).src.seqNo <= |Chunks(Flatten(parts))|
    ensures events <= all && Finishes(tid, parts, all)
    decreases Left(Run(tid, parts, events), |Chunks(Flatten(parts))|)
  {
    hide SystemOk, Step, Chunks, Flatten, Left, Run, Quiet;
    var y := Run(tid, parts, events);
    var file := Flatten(parts);
    RunKept(tid, parts, events);
    if Quiet(y) {
      QuietTransferIsDone(tid, parts, events);
      all := events;
    } else {
      var ev := NextStep(y, file);
      StepShrinks(y, file, ev);
      RunOn(tid, parts, events, ev);
      all := Finishing(tid, parts, events + [ev]);
    }
  }

  lemma RunOn(tid: seq<Byte>, parts: seq<seq<Byte>>, events: seq<Event>, ev: Event)
    ensures Run(tid, parts, events + [ev]) == Step(Run(tid, parts, events), ev)
  {
    hide Step;
    assert (events + [ev])[..|events|] == events;
  }

  /**
   However the two workers, the two pages and the channel have been interleaved: as long as the worker has not failed
   and the receiver has not aborted, the transfer can still be brought to rest with the file delivered.
   */
  lemma CanAlwaysFinish(tid: seq<Byte>, parts: seq<seq<Byte>>, events: seq<Event>)
    requires |tid| == TID_BYTES && 0 < |Flatten(parts)| <= MAX_FILE_SIZE_BYTES
    requires !Run(tid, parts, events).sink.broken && Run(tid, parts, events).sink.abort.None?
    ensures exists all :: events <= all && Finishes(tid, parts, all)
  {
    hide Run, Chunks, Flatten, Left;
    ChangesAreBounded(tid, parts, events);
    RunUnbroken(tid, parts, events);
    var all := Finishing(tid, parts, events);
  }
}
