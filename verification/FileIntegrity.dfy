/**
 What an arbitrary peer cannot make the receiver record: only a file of the offered size whose digest is the last
 one announced for it, and a finished file is recorded exactly then.
 */
module FileIntegrity {
  import opened Bytes
  import opened FileChunks
  import opened FileReceive
  import opened FileReceiveSafety

  /** The digest the last `file_complete` for this transfer announced. */
  function LastAnnounced(tid: seq<Byte>, inputs: seq<Input>): Option<Digest> {
    if inputs == [] then None
    else
      var last := inputs[|inputs| - 1];
      if last.CompleteArrives? && last.tid == tid then Some(last.sha) else LastAnnounced(tid, inputs[..|inputs| - 1])
  }

  lemma {:induction false} AnnouncedArrived(tid: seq<Byte>, inputs: seq<Input>)
    requires LastAnnounced(tid, inputs).Some?
    ensures exists k :: 0 <= k < |inputs| && inputs[k] == CompleteArrives(tid, LastAnnounced(tid, inputs).value)
  {
    var n := |inputs| - 1;
    if inputs[n].CompleteArrives? && inputs[n].tid == tid {
    } else {
      AnnouncedArrived(tid, inputs[..n]);
      var k :| 0 <= k < n && inputs[..n][k] == CompleteArrives(tid, LastAnnounced(tid, inputs).value);
      assert inputs[k] == inputs[..n][k];
    }
  }

  /** A page still receiving remembers transfer, size and last announcement, and has recorded nothing. */
  ghost predicate Remembers(k: Sink, tid: seq<Byte>, size: nat, announced: Option<Digest>) {
    k.main.Some? ==>
      && k.attachment == None && k.abort == None
      && k.main.value.tid == tid && k.main.value.expectedSize == size
      && k.main.value.senderSha256 == announced
  }

  /** What has been recorded when the transfer is over. */
  ghost predicate RecordedOk(k: Sink, size: nat, announced: Option<Digest>) {
    k.attachment.Some? ==>
      k.main == None && k.abort == None && |k.attachment.value| == size && announced == k.attachment
  }

  lemma StepRemembers(k: Sink, tid: seq<Byte>, size: nat, announced: Option<Digest>, input: Input)
    requires Remembers(k, tid, size, announced) && k.main.Some?
    ensures Remembers(Feed(k, input), tid, size,
                      if input.CompleteArrives? && input.tid == tid then Some(input.sha) else announced)
  {
    hide ParseChunkPlaintext, TotalChunks, ExpectedChunkLen;
  }

  /** A finished report at the head says what is on disk, and all of the file is. */
  lemma FinishedIsWhole(k: Sink)
    requires SinkOk(k) && k.main.Some? && k.reports != [] && k.reports[0].Finished?
    ensures k.reports[0] == Finished(k.file, k.main.value.expectedSize, k.main.value.expectedSize)
    ensures |k.file| == k.main.value.expectedSize && k.main.value.senderSha256.Some?
  {
    var s := k.main.value;
    assert k.reports[0] in k.reports;
    ReportedIsNat(k);
  }

  /** The file on disk is no longer than the file offered. */
  lemma ReportedIsNat(k: Sink)
    requires SinkOk(k) && k.main.Some?
    ensures k.main.value.bytesWritten <= k.written == |k.file| <= k.main.value.expectedSize
  {
  }

  lemma {:induction false} ReceiveRemembers(tid: seq<Byte>, size: nat, inputs: seq<Input>)
    requires size > 0
    ensures Remembers(Receive(tid, size, inputs), tid, size, LastAnnounced(tid, inputs))
    ensures Receive(tid, size, inputs).attachment.Some? ==>
      exists n :: 0 <= n <= |inputs| && RecordedOk(Receive(tid, size, inputs), size, LastAnnounced(tid, inputs[..n]))
  {
    if inputs != [] {
      var n := |inputs| - 1;
      var k := Receive(tid, size, inputs[..n]);
      ReceiveRemembers(tid, size, inputs[..n]);
      ReceiveKept(tid, size, inputs[..n]);
      if k.main.Some? {
        StepRemembers(k, tid, size, LastAnnounced(tid, inputs[..n]), inputs[n]);
        StepRecords(k, tid, size, LastAnnounced(tid, inputs[..n]), inputs[n]);
        assert RecordedOk(Receive(tid, size, inputs), size, LastAnnounced(tid, inputs[..n]));
      } else if k.attachment.Some? {
        var m :| 0 <= m <= n && RecordedOk(k, size, LastAnnounced(tid, inputs[..n][..m]));
        assert inputs[..n][..m] == inputs[..m];
      }
    }
  }

  lemma StepRecords(k: Sink, tid: seq<Byte>, size: nat, announced: Option<Digest>, input: Input)
    requires SinkOk(k) && Remembers(k, tid, size, announced) && k.main.Some?
    ensures RecordedOk(Feed(k, input), size, announced)
  {
    hide SinkOk, ParseChunkPlaintext, OnChunk, OnComplete, OnWritten;
    if input.ReportArrives? && k.reports != [] && k.reports[0].Finished? {
      FinishedIsWhole(k);
    }
  }

  /**
   Whatever the peer sends and however page and worker interleave: a file that is recorded has the size offered,
   and a `file_complete` for this transfer that announced its digest has arrived.
   */
  lemma RecordedFileWasAnnounced(tid: seq<Byte>, size: nat, inputs: seq<Input>, f: seq<Byte>)
    requires size > 0 && Receive(tid, size, inputs).attachment == Some(f)
    ensures |f| == size
    ensures exists k :: 0 <= k < |inputs| && inputs[k] == CompleteArrives(tid, f)
  {
    ReceiveRemembers(tid, size, inputs);
    hide Receive;
    var n :| 0 <= n <= |inputs| && RecordedOk(Receive(tid, size, inputs), size, LastAnnounced(tid, inputs[..n]));
    AnnouncedArrived(tid, inputs[..n]);
    var k :| 0 <= k < n && inputs[..n][k] == CompleteArrives(tid, f);
    assert inputs[k] == inputs[..n][k];
  }

  /**
   When the worker's finished report is taken, the file is recorded if and only if the last announcement is its
   digest; any other ends the transfer with an integrity failure and nothing recorded.
   */
  lemma FinishedIsRecordedIffAnnounced(tid: seq<Byte>, size: nat, inputs: seq<Input>)
    requires size > 0 && Receive(tid, size, inputs).main.Some?
    requires Receive(tid, size, inputs).reports != [] && Receive(tid, size, inputs).reports[0].Finished?
    ensures var k := Receive(tid, size, inputs);
      var k' := Receive(tid, size, inputs + [ReportArrives]);
      && k'.main == None
      && (if LastAnnounced(tid, inputs) == Some(k.file) then k'.attachment == Some(k.file) && k'.abort == None
          else k'.attachment == None && k'.abort == Some(IntegrityMismatch))
  {
    var more := inputs + [ReportArrives];
    assert more[..|more| - 1] == inputs;
    ReceiveRemembers(tid, size, inputs);
    ReceiveKept(tid, size, inputs);
    hide SinkOk;
    FinishedIsWhole(Receive(tid, size, inputs));
  }
}
