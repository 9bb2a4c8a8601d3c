/** What every run of the uploading side sends. */
module UploadProofs {
  import opened Machine
  import opened Payload
  import opened Option
  import opened UploadSpec

  // ----- one message at a time

  lemma PlainOfDataMessage(data: seq<Byte>, munge: int)
    ensures Plain(DataMessage(data, munge)) == data
  {
    MungeTwice(data);
  }

  lemma DecodeHeader(out: seq<Message>, m: Message)
    requires m.Header?
    ensures Decode(out + [m]) == Decode(out) + [Segment(m, [])]
  {
    assert (out + [m])[..|out|] == out;
  }

  lemma DecodeData(out: seq<Message>, m: Message, d: seq<Segment>, s: Segment)
    requires m.FileData? && Decode(out) == d + [s]
    ensures Decode(out + [m]) == d + [Segment(s.header, s.payload + Plain(m))]
  {
    assert (out + [m])[..|out|] == out;
  }

  // ----- the invariant

  /** The segment in progress: the current file's bytes up to the cursor. */
  function Part(u: Upload): seq<Segment>
    requires Indexed(u)
  {
    if u.bytesDone < 0 || u.files[u.next - 1].content.None? then []
    else
      var f := u.files[u.next - 1];
      var to := if u.bytesDone <= |f.content.value| then u.bytesDone else |f.content.value|;
      [Segment(HeaderFor(u.files, u.next - 1), if f.offset <= to then f.content.value[f.offset..to] else [])]
  }

  ghost predicate Cursor(u: Upload)
    requires Indexed(u)
  {
    u.bytesDone >= 0 ==>
      var f := u.files[u.next - 1];
      && u.startOffset == f.offset && u.maxBytes == f.maxBytes
      && (f.content.None? ==> u.bytesDone == f.offset)
      && (f.content.Some? ==> u.fileSize == |f.content.value|
                              && (u.bytesDone == f.offset || u.bytesDone <= |f.content.value|))
      && (f.maxBytes >= 0 ==> u.bytesDone - f.offset <= f.maxBytes)
  }

  function Finished(u: Upload): nat
    requires Indexed(u)
  {
    if u.bytesDone >= 0 then u.next - 1 else u.next
  }

  ghost predicate Exact(u: Upload) {
    && Indexed(u) && Cursor(u)
    && Decode(u.out) == Complete(u.files, Finished(u)) + Part(u)
    && (u.finishing ==> u.listed && u.next == |u.files| && u.bytesDone < 0)
    && (u.bytesDone < 0 ==> u.fileSize < 0)
  }

  /** Whole ranges of the first k files, then the first n bytes of the next one's range. */
  ghost predicate Cut(files: seq<Request>, out: seq<Message>, k: nat, n: nat) {
    && k < |files| && files[k].content.Some? && n <= |Target(files[k])|
    && Decode(out) == Complete(files, k) + [Segment(HeaderFor(files, k), Target(files[k])[..n])]
  }

  ghost predicate SentPrefix(files: seq<Request>, out: seq<Message>) {
    || (exists k :: 0 <= k <= |files| && Decode(out) == Complete(files, k))
    || (exists k, n :: Cut(files, out, k, n))
  }

  lemma ExactIsPrefix(u: Upload)
    requires Exact(u)
    ensures SentPrefix(u.files, u.out)
  {
    if Part(u) == [] {
      assert Decode(u.out) == Complete(u.files, Finished(u));
    } else {
      var f := u.files[u.next - 1];
      var p := Part(u)[0].payload;
      assert p == Target(f)[..|p|];
      assert Cut(u.files, u.out, u.next - 1, |p|);
    }
  }

  lemma ChunkKeeps(u: Upload, delivered: int)
    requires Exact(u) && u.connected && !u.waitingOnLocal && u.bytesDone >= 0
    requires !(u.maxBytes >= 0 && u.bytesDone - u.startOffset >= u.maxBytes)
    requires ReadCount(u.files[u.next - 1].content, u.bytesDone, ToRead(u), delivered) > 0
    ensures Exact(Aux(u, delivered).0)
  {
    hide Complete, DataMessage, Decode, HeaderFor, ReadCount;
    var v := Aux(u, delivered).0;
    var content := u.files[u.next - 1].content.value;
    var data := content[u.bytesDone..v.bytesDone];
    PlainOfDataMessage(data, u.munge);
    DataMessageIsData(data, u.munge);
    DecodeData(u.out, DataMessage(data, u.munge), Complete(u.files, u.next - 1), Part(u)[0]);
    assert content[u.startOffset..u.bytesDone] + data == content[u.startOffset..v.bytesDone];
  }

  lemma DataMessageIsData(data: seq<Byte>, munge: int)
    ensures DataMessage(data, munge).FileData?
  {
  }

  lemma EndOfFileKeeps(u: Upload, delivered: int)
    requires Exact(u) && u.connected && !u.waitingOnLocal && u.bytesDone >= 0
    requires (u.maxBytes >= 0 && u.bytesDone - u.startOffset >= u.maxBytes)
          || ReadCount(u.files[u.next - 1].content, u.bytesDone, ToRead(u), delivered) == 0
    ensures Exact(Aux(u, delivered).0)
  {
    hide Decode;
    if u.files[u.next - 1].content.Some? {
      hide Target;
      PartIsTarget(u, delivered);
    }
  }

  /** At the end of the range or of the file, the whole range has been sent. */
  lemma PartIsTarget(u: Upload, delivered: int)
    requires Indexed(u) && Cursor(u) && u.bytesDone >= 0 && u.files[u.next - 1].content.Some?
    requires (u.maxBytes >= 0 && u.bytesDone - u.startOffset >= u.maxBytes)
          || ReadCount(u.files[u.next - 1].content, u.bytesDone, ToRead(u), delivered) == 0
    ensures Part(u)[0].payload == Target(u.files[u.next - 1])
  {
    var f := u.files[u.next - 1];
    var content := f.content.value;
    if f.offset < |content| {
      if f.maxBytes >= 0 && u.bytesDone == f.offset + f.maxBytes {
        assert content[f.offset..|content|] == content[f.offset..];
      } else {
        assert u.bytesDone == |content|;
        assert content[f.offset..u.bytesDone] == content[f.offset..];
      }
    }
  }

  lemma NextFileKeeps(u: Upload, delivered: int)
    requires Exact(u) && u.connected && !u.waitingOnLocal && u.bytesDone < 0 && u.next < |u.files|
    ensures Exact(Aux(u, delivered).0)
  {
    hide Complete, Decode;
    var f := u.files[u.next];
    if f.content.Some? {
      DecodeHeader(u.out, HeaderFor(u.files, u.next));
    }
  }

  lemma AuxKeeps(u: Upload, delivered: int)
    requires Exact(u) && u.connected && (u.next == |u.files| ==> u.listed)
    ensures var v := Aux(u, delivered).0;
            && v.files == u.files && v.listed == u.listed
            && (v.connected ==> Exact(v)) && (!v.connected ==> SentPrefix(v.files, v.out))
  {
    hide Exact, SentPrefix;
    ExactIsPrefix(u);
    ExactIsIndexed(u);
    if !u.waitingOnLocal {
      if u.bytesDone < 0 {
        if u.next < |u.files| {
          NextFileKeeps(u, delivered);
        } else {
          FinishingKeeps(u, delivered);
        }
      } else if (u.maxBytes >= 0 && u.bytesDone - u.startOffset >= u.maxBytes)
             || ReadCount(u.files[u.next - 1].content, u.bytesDone, ToRead(u), delivered) == 0 {
        EndOfFileKeeps(u, delivered);
      } else if ReadCount(u.files[u.next - 1].content, u.bytesDone, ToRead(u), delivered) > 0 {
        ChunkKeeps(u, delivered);
      }
    }
  }

  lemma ExactIsIndexed(u: Upload)
    requires Exact(u)
    ensures Indexed(u)
  {
  }

  lemma FinishingKeeps(u: Upload, delivered: int)
    requires Exact(u) && u.connected && !u.waitingOnLocal && u.bytesDone < 0 && u.next == |u.files| && u.listed
    ensures Exact(Aux(u, delivered).0)
  {
  }

  ghost predicate Inv(u: Upload) {
    && Indexed(u)
    && (u.connected ==> Exact(u)) && (!u.connected ==> SentPrefix(u.files, u.out))
    && (!u.listed ==> u.files == [] && u.out == [] && u.bytesDone < 0 && u.drains == 0)
  }

  lemma {:induction false} DoUploadKeeps(u: Upload, device: nat -> int, k: nat)
    requires Inv(u) && u.connected && u.listed
    ensures var v := DoUpload(u, device, k); Inv(v) && v.listed && v.files == u.files
    decreases Measure(u)
  {
    hide Exact, SentPrefix, Aux;
    AuxMakesProgress(u, device(k));
    AuxKeeps(u, device(k));
    var (v, again) := Aux(u, device(k));
    if again {
      AgainMeansConnected(u, device(k));
      DoUploadKeeps(v, device, k + 1);
    }
  }

  lemma AgainMeansConnected(u: Upload, delivered: int)
    requires Indexed(u) && Aux(u, delivered).1
    ensures Aux(u, delivered).0.connected && !Aux(u, delivered).0.waitingOnLocal
  {
  }

  lemma StartKeeps(u: Upload, files: seq<Request>, device: nat -> int)
    requires Inv(u) && !u.listed && u.connected && files != []
    ensures Inv(Next(u, Start(files, device)))
  {
    hide DoUpload, SentPrefix;
    var v := u.(files := files, listed := true, next := 0, bytesDone := -1, fileSize := -1);
    assert Exact(v);
    DoUploadKeeps(v, device, 0);
  }

  lemma EmptyStartKeeps(u: Upload, device: nat -> int)
    requires Inv(u) && !u.listed && u.connected
    ensures Inv(Next(u, Start([], device)))
  {
    hide SentPrefix, Decode, Complete;
    ExactIsPrefix(u);
  }

  lemma DrainedKeeps(u: Upload, device: nat -> int)
    requires Inv(u) && u.drains > 0 && u.connected
    ensures Inv(Next(u, Drained(device)))
  {
    hide DoUpload, SentPrefix, Decode, Complete;
    var v := u.(drains := u.drains - 1);
    assert Exact(v) by { assert Part(v) == Part(u); }
    if u.finishing {
      ExactIsPrefix(v);
    } else {
      DoUploadKeeps(v, device, 0);
    }
  }

  lemma BeginKeeps(u: Upload, device: nat -> int)
    requires Inv(u) && u.waitingOnLocal
    ensures Inv(Next(u, Begin(true, device)))
  {
    hide DoUpload, SentPrefix, Decode, Complete;
    var v := u.(waitingOnLocal := false);
    assert Part(v) == Part(u);
    if u.connected && u.listed {
      DoUploadKeeps(v, device, 0);
    }
  }

  lemma PauseKeeps(u: Upload)
    requires Inv(u)
    ensures Inv(u.(waitingOnLocal := true))
  {
    hide SentPrefix, Decode, Complete;
    assert Part(u.(waitingOnLocal := true)) == Part(u);
  }

  lemma NextKeeps(u: Upload, e: Event)
    requires Inv(u)
    ensures Inv(Next(u, e))
  {
    hide Inv, DoUpload;
    InvIsIndexed(u);
    match e
    case Start(files, device) =>
      if !u.listed && u.connected {
        if files == [] {
          EmptyStartKeeps(u, device);
        } else {
          StartKeeps(u, files, device);
        }
      }
    case Drained(device) =>
      if u.drains > 0 && u.connected {
        DrainedKeeps(u, device);
      }
    case Pause => PauseKeeps(u);
    case Begin(enabled, device) =>
      if enabled && u.waitingOnLocal {
        BeginKeeps(u, device);
      }
  }

  lemma InvIsIndexed(u: Upload)
    requires Inv(u)
    ensures Indexed(u)
  {
  }

  lemma {:induction false} RunKeeps(munge: int, events: seq<Event>)
    ensures Inv(Run(Fresh(munge), events))
  {
    hide Inv, Next;
    if events == [] {
      FreshInv(munge);
    } else {
      RunKeeps(munge, events[..|events| - 1]);
      NextKeeps(Run(Fresh(munge), events[..|events| - 1]), events[|events| - 1]);
    }
  }

  lemma FreshInv(munge: int)
    ensures Inv(Fresh(munge))
  {
    assert Decode(Fresh(munge).out) == [];
  }

  // ----- results over whole runs

  /** At every moment the payloads after each header, unmunged and concatenated, are the whole
      requested range of every finished file, in order, and a prefix of one more. */
  lemma PayloadsAreRequestedRanges(munge: int, events: seq<Event>)
    ensures var u := Run(Fresh(munge), events); SentPrefix(u.files, u.out)
  {
    RunKeeps(munge, events);
    var u := Run(Fresh(munge), events);
    if u.connected {
      ExactIsPrefix(u);
    }
  }

  /** When the last file is done, everything asked for was sent, and nothing else. */
  lemma FinishedUploadIsComplete(munge: int, events: seq<Event>)
    requires var u := Run(Fresh(munge), events); u.connected && u.finishing
    ensures var u := Run(Fresh(munge), events); Decode(u.out) == Complete(u.files, |u.files|)
  {
    RunKeeps(munge, events);
  }

  /** From a pause until BeginTransfer nothing is sent, whatever drains arrive. */
  lemma {:induction false} NothingIsSentWhileWaiting(u: Upload, events: seq<Event>)
    requires Indexed(u) && u.waitingOnLocal && forall e :: e in events ==> !e.Begin?
    ensures Run(u, events).out == u.out
    ensures Run(u, events).waitingOnLocal || !Run(u, events).connected
    decreases |events|
  {
    hide Next;
    if events != [] {
      var before, e := events[..|events| - 1], events[|events| - 1];
      assert e in events && forall d :: d in before ==> d in events;
      NothingIsSentWhileWaiting(u, before);
      WaitingSendsNothing(Run(u, before), e);
    }
  }

  lemma WaitingSendsNothing(u: Upload, e: Event)
    requires Indexed(u) && (u.waitingOnLocal || !u.connected) && !e.Begin?
    ensures Next(u, e).out == u.out && (Next(u, e).waitingOnLocal || !Next(u, e).connected)
  {
  }

  // ----- an upload in progress never stalls

  /** Not paused, and no drain to wake it: only after a file that could not be opened. */
  ghost predicate Awake(u: Upload)
    requires Indexed(u)
  {
    u.connected && u.listed && !u.waitingOnLocal ==>
      u.drains > 0 || (u.bytesDone >= 0 && u.files[u.next - 1].content.None?)
  }

  lemma {:induction false} DoUploadAwakes(u: Upload, device: nat -> int, k: nat)
    requires Indexed(u)
    ensures Awake(DoUpload(u, device, k))
    decreases Measure(u)
  {
    AuxMakesProgress(u, device(k));
    var (v, again) := Aux(u, device(k));
    if again {
      DoUploadAwakes(v, device, k + 1);
    }
  }

  lemma {:induction false} UploadStaysAwake(munge: int, events: seq<Event>)
    ensures Awake(Run(Fresh(munge), events))
    decreases |events|
  {
    hide DoUpload;
    if events != [] {
      var u, e := Run(Fresh(munge), events[..|events| - 1]), events[|events| - 1];
      UploadStaysAwake(munge, events[..|events| - 1]);
      RunKeeps(munge, events[..|events| - 1]);
      match e
      case Start(files, device) =>
        if files != [] && !u.listed {
          DoUploadAwakes(u.(files := files, listed := true, next := 0, bytesDone := -1, fileSize := -1), device, 0);
        }
      case Drained(device) =>
        if u.drains > 0 {
          DoUploadAwakes(u.(drains := u.drains - 1), device, 0);
        }
      case Pause =>
      case Begin(enabled, device) => DoUploadAwakes(u.(waitingOnLocal := false), device, 0);
    }
  }

  // ----- the estimate of bytes left to upload

  function SizeOf(f: Request): nat {
    if f.content.Some? then |f.content.value| else 0
  }

  function SizesFrom(files: seq<Request>, i: nat): nat
    requires i <= |files|
    decreases |files| - i
  {
    if i == |files| then 0 else SizeOf(files[i]) + SizesFrom(files, i + 1)
  }

  /** GetNumBytesLeftToUpload: the rest of the current file and all of the files after it. */
  function BytesLeft(u: Upload): nat
    requires Indexed(u)
  {
    (if u.bytesDone < u.fileSize then u.fileSize - u.bytesDone else 0) + SizesFrom(u.files, u.next)
  }

  function TargetsFrom(files: seq<Request>, i: nat): nat
    requires i <= |files|
    decreases |files| - i
  {
    if i == |files| then 0
    else (if files[i].content.Some? then |Target(files[i])| else 0) + TargetsFrom(files, i + 1)
  }

  /** What really remains to be sent. */
  function StillToSend(u: Upload): int
    requires Indexed(u)
  {
    (if Part(u) == [] then 0 else |Target(u.files[u.next - 1])| - |Part(u)[0].payload|)
    + TargetsFrom(u.files, u.next)
  }

  lemma {:induction false} TargetsFit(files: seq<Request>, i: nat)
    requires i <= |files|
    ensures TargetsFrom(files, i) <= SizesFrom(files, i)
    decreases |files| - i
  {
    if i < |files| {
      TargetsFit(files, i + 1);
    }
  }

  /** The estimate is never below what remains. */
  lemma EstimateNeverUnderestimates(munge: int, events: seq<Event>)
    requires Run(Fresh(munge), events).connected
    ensures StillToSend(Run(Fresh(munge), events)) <= BytesLeft(Run(Fresh(munge), events))
  {
    var u := Run(Fresh(munge), events);
    RunKeeps(munge, events);
    TargetsFit(u.files, u.next);
    hide Decode, Complete;
  }

  lemma {:induction false} DoUploadShrinksEstimate(u: Upload, device: nat -> int, k: nat)
    requires Inv(u) && u.connected && u.listed
    ensures BytesLeft(DoUpload(u, device, k)) <= BytesLeft(u)
    decreases Measure(u)
  {
    hide Inv;
    InvIsIndexed(u);
    AuxMakesProgress(u, device(k));
    AuxShrinksEstimate(u, device(k));
    var (v, again) := Aux(u, device(k));
    if again {
      AuxKeepsInv(u, device(k));
      DoUploadShrinksEstimate(v, device, k + 1);
    }
  }

  lemma AuxKeepsInv(u: Upload, delivered: int)
    requires Inv(u) && u.connected && u.listed
    ensures Inv(Aux(u, delivered).0) && Aux(u, delivered).0.listed
    ensures Aux(u, delivered).1 ==> Aux(u, delivered).0.connected
  {
    hide Exact, SentPrefix;
    AuxKeeps(u, delivered);
    AuxMakesProgress(u, delivered);
  }

  lemma AuxShrinksEstimate(u: Upload, delivered: int)
    requires Inv(u) && u.connected && u.listed
    ensures Indexed(Aux(u, delivered).0) && BytesLeft(Aux(u, delivered).0) <= BytesLeft(u)
  {
    hide Decode, Complete, SentPrefix;
  }

  /** Once the files are known the estimate never grows. */
  lemma EstimateNeverGrows(munge: int, events: seq<Event>, e: Event)
    requires Run(Fresh(munge), events).listed
    ensures BytesLeft(Next(Run(Fresh(munge), events), e)) <= BytesLeft(Run(Fresh(munge), events))
  {
    var u := Run(Fresh(munge), events);
    RunKeeps(munge, events);
    EstimateStep(u, e);
  }

  lemma EstimateStep(u: Upload, e: Event)
    requires Inv(u) && u.listed
    ensures BytesLeft(Next(u, e)) <= BytesLeft(u)
  {
    hide DoUpload, Decode, Complete, SentPrefix, SizesFrom;
    match e
    case Start(_, _) =>
    case Drained(device) =>
      if u.drains > 0 && u.connected && !u.finishing {
        var v := u.(drains := u.drains - 1);
        assert Part(v) == Part(u);
        DoUploadShrinksEstimate(v, device, 0);
      }
    case Pause =>
    case Begin(enabled, device) =>
      if enabled && u.waitingOnLocal && u.connected {
        var v := u.(waitingOnLocal := false);
        assert Part(v) == Part(u);
        DoUploadShrinksEstimate(v, device, 0);
      }
  }
}
