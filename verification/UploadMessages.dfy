/** What the messages of an upload say one by one, in every run. */
module UploadMessages {
  import opened Machine
  import opened Option
  import opened Payload
  import opened UploadSpec
  import UploadProofs

  /** A header tells size, start and range of its file; data is a non-empty chunk of at most 8 kB,
      in the mode asked for, with the sum of its bytes. */
  ghost predicate True(m: Message, files: seq<Request>, munge: int) {
    match m
    case Header(file, size, startOffset, sendLength) =>
      && file < |files| && files[file].content.Some?
      && size == |files[file].content.value| && startOffset == files[file].offset
      && sendLength == (if files[file].maxBytes < 0 then -1 else files[file].maxBytes)
    case FileData(data, mode, checksum) =>
      && 0 < |data| <= 8192
      && mode == (if munge == 1 then 1 else 0)
      && checksum == Some(Checksum(data))
  }

  ghost predicate AllTrue(u: Upload) { forall m :: m in u.out ==> True(m, u.files, u.munge) }

  ghost predicate Inv(u: Upload) {
    && Indexed(u) && AllTrue(u) && (!u.listed ==> u.out == [] && u.drains == 0)
  }

  lemma ChunkIsTrue(data: seq<Byte>, munge: int, files: seq<Request>)
    requires 0 < |data| <= 8192
    ensures True(DataMessage(data, munge), files, munge)
  {
    hide Checksum;
  }

  lemma AuxStaysTrue(u: Upload, delivered: int)
    requires Inv(u) && u.listed
    ensures Inv(Aux(u, delivered).0) && Aux(u, delivered).0.listed
  {
    hide DataMessage, Checksum;
    AuxMakesProgress(u, delivered);
    var v := Aux(u, delivered).0;
    if v.out != u.out && u.bytesDone >= 0 {
      ChunkIsTrue(u.files[u.next - 1].content.value[u.bytesDone..v.bytesDone], u.munge, u.files);
    }
  }

  lemma {:induction false} DoUploadStaysTrue(u: Upload, device: nat -> int, k: nat)
    requires Inv(u) && u.listed
    ensures Inv(DoUpload(u, device, k)) && DoUpload(u, device, k).listed
    decreases Measure(u)
  {
    hide Aux, Inv;
    InvIsIndexed(u);
    AuxMakesProgress(u, device(k));
    AuxStaysTrue(u, device(k));
    var (v, again) := Aux(u, device(k));
    if again {
      DoUploadStaysTrue(v, device, k + 1);
    }
  }

  lemma InvIsIndexed(u: Upload)
    requires Inv(u)
    ensures Indexed(u)
  {
  }

  lemma NextStaysTrue(u: Upload, e: Event)
    requires Inv(u)
    ensures Inv(Next(u, e))
  {
    hide DoUpload, True;
    match e
    case Start(files, device) =>
      if files != [] && !u.listed && u.connected {
        DoUploadStaysTrue(u.(files := files, listed := true, next := 0, bytesDone := -1, fileSize := -1), device, 0);
      }
    case Drained(device) =>
      if u.drains > 0 {
        DoUploadStaysTrue(u.(drains := u.drains - 1), device, 0);
      }
    case Pause =>
    case Begin(enabled, device) =>
      if u.listed {
        DoUploadStaysTrue(u.(waitingOnLocal := false), device, 0);
      }
  }

  /** In every run every message sent is true. */
  lemma {:induction false} MessagesAreTrue(munge: int, events: seq<Event>)
    ensures Inv(Run(Fresh(munge), events)) && Run(Fresh(munge), events).munge == munge
  {
    hide Next, Inv;
    if events == [] {
      FreshIsTrue(munge);
    } else {
      var u := Run(Fresh(munge), events[..|events| - 1]);
      MessagesAreTrue(munge, events[..|events| - 1]);
      NextStaysTrue(u, events[|events| - 1]);
      MungeIsKept(u, events[|events| - 1]);
    }
  }

  lemma FreshIsTrue(munge: int)
    ensures Inv(Fresh(munge)) && Fresh(munge).munge == munge
  {
  }

  lemma MungeIsKept(u: Upload, e: Event)
    requires Indexed(u)
    ensures Next(u, e).munge == u.munge
  {
    hide DoUpload;
    var (files, device) := (if e.Start? then e.files else u.files, if e.Pause? then (k: nat) => 0 else e.device);
    UploadKeepsMunge(u.(files := files, listed := true, next := 0, bytesDone := -1, fileSize := -1), device, 0);
    UploadKeepsMunge(u.(drains := if u.drains > 0 then u.drains - 1 else 0), device, 0);
    UploadKeepsMunge(u.(waitingOnLocal := false), device, 0);
  }

  lemma {:induction false} UploadKeepsMunge(u: Upload, device: nat -> int, k: nat)
    requires Indexed(u)
    ensures DoUpload(u, device, k).munge == u.munge
    decreases Measure(u)
  {
    AuxMakesProgress(u, device(k));
    var (v, again) := Aux(u, device(k));
    if again {
      UploadKeepsMunge(v, device, k + 1);
    }
  }

  /** In particular a header announces the size of its file, where it starts, and how much of it
      will come. */
  lemma HeadersAreTrue(munge: int, events: seq<Event>, m: Message)
    requires m in Run(Fresh(munge), events).out && m.Header?
    ensures var files := Run(Fresh(munge), events).files;
            && m.file < |files| && files[m.file].content.Some?
            && m.size == |files[m.file].content.value| && m.startOffset == files[m.file].offset
            && (files[m.file].maxBytes >= 0 ==> m.sendLength == files[m.file].maxBytes)
            && (files[m.file].maxBytes < 0 ==> m.sendLength == -1)
  {
    MessagesAreTrue(munge, events);
  }

  // ----- one call, and single events

  /** With a device that delivers what it is asked for, a chunk has 8192 bytes, or all that is left
      of the range and of the file. */
  lemma ChunksAreFull(u: Upload)
    requires Indexed(u) && u.connected && !u.waitingOnLocal && u.bytesDone >= 0
    requires u.files[u.next - 1].content.Some? && u.bytesDone < |u.files[u.next - 1].content.value|
    requires u.maxBytes >= 0 ==> u.bytesDone - u.startOffset < u.maxBytes
    ensures var (v, again) := Aux(u, 8192);
            var inFile := |u.files[u.next - 1].content.value| - u.bytesDone;
            var inRange := if u.maxBytes >= 0 then u.maxBytes - (u.bytesDone - u.startOffset) else inFile;
            var n := v.bytesDone - u.bytesDone;
            && !again && v.drains == u.drains + 1 && |v.out| == |u.out| + 1
            && n <= 8192 && n <= inFile && n <= inRange && (n == 8192 || n == inFile || n == inRange)
  {
    hide DataMessage;
  }

  /** Whatever happened before, nothing is sent between a pause and the next BeginTransfer; and a
      disabled BeginTransfer changes nothing. */
  lemma PauseHoldsEverything(munge: int, before: seq<Event>, after: seq<Event>)
    requires forall e :: e in after ==> !e.Begin? || !e.enabled
    ensures Run(Fresh(munge), before + [Pause] + after).out == Run(Fresh(munge), before).out
  {
    hide Next;
    PauseWaits(Run(Fresh(munge), before));
    assert (before + [Pause])[..|before|] == before;
    HoldsWhileWaiting(munge, before + [Pause], after);
  }

  /** And nothing is sent before the first one. */
  lemma NothingBeforeBegin(munge: int, events: seq<Event>)
    requires forall e :: e in events ==> !e.Begin? || !e.enabled
    ensures Run(Fresh(munge), events).out == []
  {
    assert Run(Fresh(munge), []) == Fresh(munge);
    HoldsWhileWaiting(munge, [], events);
    assert [] + events == events;
  }

  lemma PauseWaits(u: Upload)
    requires Indexed(u)
    ensures Next(u, Pause) == u.(waitingOnLocal := true)
  {
  }

  lemma {:induction false} HoldsWhileWaiting(munge: int, before: seq<Event>, after: seq<Event>)
    requires Run(Fresh(munge), before).waitingOnLocal && forall e :: e in after ==> !e.Begin? || !e.enabled
    ensures var u := Run(Fresh(munge), before + after);
            u.out == Run(Fresh(munge), before).out && (u.waitingOnLocal || !u.connected)
    decreases |after|
  {
    hide Next;
    if after == [] {
      assert before + after == before;
    } else {
      var most, e := after[..|after| - 1], after[|after| - 1];
      assert e in after && forall d :: d in most ==> d in after;
      HoldsWhileWaiting(munge, before, most);
      assert (before + after)[..|before + after| - 1] == before + most;
      HeldStep(Run(Fresh(munge), before + most), e);
    }
  }

  lemma HeldStep(u: Upload, e: Event)
    requires Indexed(u) && (u.waitingOnLocal || !u.connected) && (!e.Begin? || !e.enabled)
    ensures Next(u, e).out == u.out && (Next(u, e).waitingOnLocal || !Next(u, e).connected)
  {
  }

  predicate Ended(u: Upload) { !u.connected && !u.waitingOnLocal && u.bytesDone == u.fileSize == -1 }

  /** The drain that a finishing upload waits for ends it; and a list of nothing ends it at once. */
  lemma UploadsEnd(u: Upload, device: nat -> int)
    requires Indexed(u) && u.connected
    ensures u.finishing && u.drains > 0 ==>
              var v := Next(u, Drained(device)); Ended(v) && v.out == u.out
    ensures !u.listed ==> Ended(Next(u, Start([], device)))
  {
  }

  // ----- when the estimate is exact

  lemma {:induction false} WholeFilesFit(files: seq<Request>, i: nat)
    requires i <= |files| && forall f :: f in files ==> f.offset == 0 && f.maxBytes < 0
    ensures UploadProofs.TargetsFrom(files, i) == UploadProofs.SizesFrom(files, i)
    decreases |files| - i
  {
    if i < |files| {
      assert files[i] in files;
      WholeFilesFit(files, i + 1);
    }
  }

  /** For whole files the estimate of bytes left is exactly what is still to be sent. */
  lemma EstimateIsExactForWholeFiles(munge: int, events: seq<Event>)
    requires var u := Run(Fresh(munge), events);
             u.connected && forall f :: f in u.files ==> f.offset == 0 && f.maxBytes < 0
    ensures var u := Run(Fresh(munge), events);
            UploadProofs.StillToSend(u) == UploadProofs.BytesLeft(u)
  {
    var u := Run(Fresh(munge), events);
    UploadProofs.RunKeeps(munge, events);
    NoFileNoSize(munge, events);
    WholeFilesFit(u.files, u.next);
    hide Run, Decode, Complete, Target, Sized, UploadProofs.StillToSend, UploadProofs.BytesLeft;
    if u.bytesDone >= 0 {
      assert u.files[u.next - 1] in u.files;
    }
    CurrentFileIsExact(u);
  }

  lemma CurrentFileIsExact(u: Upload)
    requires Indexed(u) && UploadProofs.Cursor(u) && Sized(u)
    requires u.bytesDone >= 0 ==> u.files[u.next - 1].offset == 0 && u.files[u.next - 1].maxBytes < 0
    requires UploadProofs.TargetsFrom(u.files, u.next) == UploadProofs.SizesFrom(u.files, u.next)
    ensures UploadProofs.StillToSend(u) == UploadProofs.BytesLeft(u)
  {
  }

  /** Without an open current file there is no size. */
  ghost predicate Sized(u: Upload)
    requires Indexed(u)
  {
    && (u.bytesDone < 0 ==> u.bytesDone == u.fileSize == -1)
    && (u.bytesDone >= 0 && u.files[u.next - 1].content.None? ==> u.fileSize == -1)
  }

  lemma {:induction false} NoFileNoSize(munge: int, events: seq<Event>)
    ensures Sized(Run(Fresh(munge), events))
  {
    if events != [] {
      NoFileNoSize(munge, events[..|events| - 1]);
      hide Run, Sized;
      NextHasNoSize(Run(Fresh(munge), events[..|events| - 1]), events[|events| - 1]);
    }
  }

  lemma {:induction false} UploadHasNoSize(u: Upload, device: nat -> int, k: nat)
    requires Indexed(u) && Sized(u)
    ensures Sized(DoUpload(u, device, k))
    decreases Measure(u)
  {
    AuxMakesProgress(u, device(k));
    var (v, again) := Aux(u, device(k));
    if again {
      UploadHasNoSize(v, device, k + 1);
    }
  }

  lemma NextHasNoSize(u: Upload, e: Event)
    requires Indexed(u) && Sized(u)
    ensures Sized(Next(u, e))
  {
    hide DoUpload;
    match e
    case Start(files, device) =>
      UploadHasNoSize(u.(files := files, listed := true, next := 0, bytesDone := -1, fileSize := -1), device, 0);
    case Drained(device) =>
      if u.drains > 0 {
        UploadHasNoSize(u.(drains := u.drains - 1), device, 0);
      }
    case Pause =>
    case Begin(_, device) => UploadHasNoSize(u.(waitingOnLocal := false), device, 0);
  }
}
