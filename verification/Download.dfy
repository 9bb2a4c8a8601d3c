/** The receiving side: headers start files, data messages are verified, unmunged in place and
    appended; and the result of a whole session, uploader and downloader together. */
module Download {
  import opened Machine
  import opened Payload
  import opened Option
  import opened UploadSpec
  import opened Resume
  import UploadProofs

  /** A file being received, or received: which request it answers, and its bytes. */
  datatype Received = Received(file: nat, content: seq<Byte>)

  datatype Session = Session(
    wanted: set<nat>,                        // files not started yet
    existing: map<nat, seq<Byte>>,           // what the directory holds under their names
    files: seq<Received>,                    // oldest first; the last one is current
    size: int, bytesDone: int, open: bool)   // open: not aborted

  function Existing(s: Session, file: nat): Option<seq<Byte>> {
    if file in s.existing then Some(s.existing[file]) else None
  }

  function Acceptable(m: Message): bool
    requires m.FileData?
  {
    && (m.checksum.Some? ==> m.checksum.value == Checksum(m.data))
    && (m.munge == MUNGE_MODE_NONE || m.munge == MUNGE_MODE_XOR)
  }

  function Closed(s: Session): Session { s.(open := false, size := -1, bytesDone := -1) }

  /** disk: how many bytes the disk takes; with none, no file can be created either. */
  function Receive(s: Session, m: Message, disk: nat): Session {
    if !s.open then s
    else match m
      case Header(file, size, startOffset, _) =>
        if file !in s.wanted then Closed(s)
        else if disk == 0 then Closed(s.(wanted := s.wanted - {file}))
        else
          s.(wanted := s.wanted - {file}, size := size, bytesDone := startOffset,
             files := s.files + [Received(file, Base(Existing(s, file), startOffset))])
      case FileData(_, _, _) =>
        if !Acceptable(m) || s.files == [] then Closed(s)
        else
          var r := s.files[|s.files| - 1];
          var stored := if |m.data| <= disk then |m.data| else disk;
          var t := s.(files := s.files[|s.files| - 1 := Received(r.file, r.content + Plain(m)[..stored])]);
          if stored < |m.data| then Closed(t) else t.(bytesDone := s.bytesDone + |m.data|)
  }

  /** A disk with room for everything a message brings. */
  function Room(m: Message): nat { if m.FileData? then |m.data| else 1 }

  function ReceiveAll(s: Session, out: seq<Message>): Session {
    if out == [] then s
    else
      var m := out[|out| - 1];
      Receive(ReceiveAll(s, out[..|out| - 1]), m, Room(m))
  }

  // ----- the object

  class Downloader {
    var fileSet: set<nat>
    var directory: map<nat, seq<Byte>>
    var files: seq<Received>
    var currentFileSize: int
    var currentFileBytesDone: int
    var connected: bool

    ghost function View(): Session
      reads this
    {
      Session(fileSet, directory, files, currentFileSize, currentFileBytesDone, connected)
    }

    constructor (wanted: set<nat>, existing: map<nat, seq<Byte>>)
      ensures View() == Session(wanted, existing, [], -1, -1, true)
    {
      fileSet, directory, files, currentFileSize, currentFileBytesDone, connected :=
        wanted, existing, [], -1, -1, true;
    }

    method AbortSession()
      modifies this`connected, this`currentFileSize, this`currentFileBytesDone
      ensures View() == Closed(old(View()))
    {
      connected, currentFileSize, currentFileBytesDone := false, -1, -1;
    }

    method FileHeader(file: nat, size: nat, startOffset: nat, sendLength: int, disk: nat)
      requires connected
      modifies this
      ensures View() == Receive(old(View()), Header(file, size, startOffset, sendLength), disk)
    {
      if file !in fileSet {
        AbortSession();
        return;
      }
      fileSet := fileSet - {file};
      currentFileSize := size;
      var append := startOffset > 0 && file in directory && |directory[file]| == startOffset;
      if disk == 0 {
        AbortSession();   // the file cannot be opened or created
        return;
      }
      files := files + [Received(file, if append then directory[file] else [])];
      currentFileBytesDone := startOffset;
    }

    /** Verifies and unmunges the data in place; says whether it may be stored. */
    method Unpack(data: array<Byte>, munge: int, checksum: Option<nat>) returns (abortSession: bool)
      modifies data
      ensures abortSession == !Acceptable(old(Message.FileData(data[..], munge, checksum)))
      ensures !abortSession ==> data[..] == Plain(old(Message.FileData(data[..], munge, checksum)))
    {
      hide Checksum;
      abortSession := false;
      if checksum.Some? {
        var myChecksum := CalculateChecksum(data, data.Length);
        assert data[..data.Length] == data[..];
        if myChecksum != checksum.value {
          abortSession := true;
        }
      }
      if munge == MUNGE_MODE_XOR {
        MungeInPlace(data, data.Length);
        assert data[..data.Length] == data[..];
      } else if munge != MUNGE_MODE_NONE {
        abortSession := true;
      }
    }

    method FileData(data: array<Byte>, munge: int, checksum: Option<nat>, disk: nat)
      requires connected
      modifies this, data
      ensures View() == Receive(old(View()), old(Message.FileData(data[..], munge, checksum)), disk)
    {
      hide Acceptable, Plain;
      var abortSession := Unpack(data, munge, checksum);
      if abortSession || files == [] {
        AbortSession();
        return;
      }
      var stored := if data.Length <= disk then data.Length else disk;
      var current := files[|files| - 1];
      files := files[|files| - 1 := Received(current.file, current.content + data[..stored])];
      if stored < data.Length {
        AbortSession();   // the disk took less
      } else {
        currentFileBytesDone := currentFileBytesDone + data.Length;
      }
    }
  }

  // ----- sender's messages

  ghost predicate Honest(out: seq<Message>) {
    forall m :: m in out ==> m.FileData? ==> Acceptable(m)
  }

  lemma DataMessageIsAcceptable(data: seq<Byte>, munge: int)
    ensures DataMessage(data, munge).FileData? && Acceptable(DataMessage(data, munge))
  {
  }

  /** Messages are honest, and no data comes before the header of its file. */
  ghost predicate HonestUpload(u: Upload) {
    && Indexed(u) && Honest(u.out) && (u.out != [] ==> u.out[0].Header?)
    && (u.bytesDone >= 0 && u.files[u.next - 1].content.Some? ==> u.out != [])
  }

  lemma AuxIsHonest(u: Upload, delivered: int)
    requires HonestUpload(u)
    ensures HonestUpload(Aux(u, delivered).0)
  {
    hide DataMessage, Acceptable;
    AuxMakesProgress(u, delivered);
    var v := Aux(u, delivered).0;
    if v.out != u.out && u.bytesDone >= 0 {
      DataMessageIsAcceptable(u.files[u.next - 1].content.value[u.bytesDone..v.bytesDone], u.munge);
    }
  }

  lemma {:induction false} DoUploadIsHonest(u: Upload, device: nat -> int, k: nat)
    requires HonestUpload(u)
    ensures HonestUpload(DoUpload(u, device, k))
    decreases Measure(u)
  {
    hide Aux, Honest;
    AuxMakesProgress(u, device(k));
    AuxIsHonest(u, device(k));
    var (v, again) := Aux(u, device(k));
    if again {
      DoUploadIsHonest(v, device, k + 1);
    }
  }

  lemma {:induction false} RunIsHonest(munge: int, events: seq<Event>)
    ensures HonestUpload(Run(Fresh(munge), events))
    decreases |events|
  {
    hide DoUpload;
    if events != [] {
      var u, e := Run(Fresh(munge), events[..|events| - 1]), events[|events| - 1];
      RunIsHonest(munge, events[..|events| - 1]);
      match e
      case Start(files, device) =>
        DoUploadIsHonest(u.(files := files, listed := true, next := 0, bytesDone := -1, fileSize := -1), device, 0);
      case Drained(device) =>
        if u.drains > 0 {
          DoUploadIsHonest(u.(drains := u.drains - 1), device, 0);
        }
      case Pause =>
      case Begin(enabled, device) => DoUploadIsHonest(u.(waitingOnLocal := false), device, 0);
    }
  }

  // ----- what arrives is what the messages decode to

  function SavedOf(existing: map<nat, seq<Byte>>, d: seq<Segment>): (r: seq<Received>)
    requires forall i :: 0 <= i < |d| ==> d[i].header.Header?
    ensures |r| == |d|
  {
    if d == [] then []
    else
      var last := d[|d| - 1];
      var file := last.header.file;
      SavedOf(existing, d[..|d| - 1])
      + [Received(file, Base(if file in existing then Some(existing[file]) else None, last.header.startOffset)
                        + last.payload)]
  }

  ghost predicate Distinct(d: seq<Segment>, wanted: set<nat>) {
    && (forall i :: 0 <= i < |d| ==> d[i].header.Header? && d[i].header.file in wanted)
    && (forall i, j :: 0 <= i < j < |d| ==> d[i].header.file != d[j].header.file)
  }

  function FilesOf(d: seq<Segment>): set<nat>
    requires forall i :: 0 <= i < |d| ==> d[i].header.Header?
  {
    set i | 0 <= i < |d| :: d[i].header.file
  }

  /** The session's size and byte count are those of the last file. */
  ghost predicate Counts(t: Session, d: seq<Segment>)
    requires d != [] && forall i :: 0 <= i < |d| ==> d[i].header.Header?
  {
    var last := d[|d| - 1];
    t.size == last.header.size && t.bytesDone == last.header.startOffset + |last.payload|
  }

  /** Honest messages for distinct wanted files are all accepted, and each saved file is its base
      followed by the payloads after its header. */
  lemma {:induction false} ReceivedIsDecoded(s: Session, out: seq<Message>)
    requires s.open && s.files == [] && Honest(out)
    requires out != [] ==> out[0].Header?
    requires Distinct(Decode(out), s.wanted)
    ensures var t, d := ReceiveAll(s, out), Decode(out);
            && t.open && t.existing == s.existing && (out != [] ==> d != [])
            && t.files == SavedOf(s.existing, d)
            && t.wanted == s.wanted - FilesOf(d)
            && (d != [] ==> Counts(t, d))
    decreases |out|
  {
    if out != [] {
      var before, m := out[..|out| - 1], out[|out| - 1];
      var d := Decode(before);
      assert m in out && forall b :: b in before ==> b in out;
      hide Acceptable, Plain, Base, SavedOf, FilesOf, Receive;
      if m.Header? {
        assert before != [] ==> before[0] == out[0];
        DistinctBefore(d, m, s.wanted);
        ReceivedIsDecoded(s, before);
        hide Distinct;
        HeaderStep(s, ReceiveAll(s, before), m, d);
      } else {
        assert before != [] && before[0] == out[0];
        DecodeStartsWithHeader(before);
        var n := |d| - 1;
        DistinctExtended(d, d[n].payload + Plain(m), s.wanted);
        ReceivedIsDecoded(s, before);
        hide Distinct, Honest;
        DataStep(s, ReceiveAll(s, before), m, d);
      }
    }
  }

  lemma DistinctBefore(d: seq<Segment>, m: Message, wanted: set<nat>)
    requires Distinct(d + [Segment(m, [])], wanted)
    ensures Distinct(d, wanted)
  {
    var e := d + [Segment(m, [])];
    assert forall i :: 0 <= i < |d| ==> e[i] == d[i];
  }

  lemma DistinctExtended(d: seq<Segment>, payload: seq<Byte>, wanted: set<nat>)
    requires d != [] && Distinct(d[|d| - 1 := Segment(d[|d| - 1].header, payload)], wanted)
    ensures Distinct(d, wanted)
  {
    var e := d[|d| - 1 := Segment(d[|d| - 1].header, payload)];
    assert forall i :: 0 <= i < |d| ==> e[i].header == d[i].header;
  }

  lemma {:induction false} DecodeStartsWithHeader(out: seq<Message>)
    requires out != [] && out[0].Header?
    ensures Decode(out) != []
    decreases |out|
  {
    if |out| > 1 {
      DecodeStartsWithHeader(out[..|out| - 1]);
    }
  }

  lemma HeaderStep(s: Session, t: Session, m: Message, d: seq<Segment>)
    requires m.Header? && t.open && t.existing == s.existing
    requires Distinct(d + [Segment(m, [])], s.wanted)
    requires (forall i :: 0 <= i < |d| ==> d[i].header.Header?)
    requires t.files == SavedOf(s.existing, d) && t.wanted == s.wanted - FilesOf(d)
    ensures var e := d + [Segment(m, [])];
            && Receive(t, m, Room(m)).open && Receive(t, m, Room(m)).existing == s.existing
            && Receive(t, m, Room(m)).files == SavedOf(s.existing, e)
            && Receive(t, m, Room(m)).wanted == s.wanted - FilesOf(e)
            && Counts(Receive(t, m, Room(m)), e)
  {
    hide Base, SavedOf, FilesOf;
    var e := d + [Segment(m, [])];
    assert e[|d|] == Segment(m, []) && forall i :: 0 <= i < |d| ==> e[i] == d[i];
    assert m.file in s.wanted && forall i :: 0 <= i < |d| ==> d[i].header.file != m.file;
    hide Distinct;
    FilesOfOneMore(d, m);
    assert s.wanted - FilesOf(d) - {m.file} == s.wanted - (FilesOf(d) + {m.file});
    SavedOfOneMore(s.existing, d, m);
  }

  lemma FilesOfOneMore(d: seq<Segment>, m: Message)
    requires m.Header? && forall i :: 0 <= i < |d| ==> d[i].header.Header?
    ensures FilesOf(d + [Segment(m, [])]) == FilesOf(d) + {m.file}
    ensures (forall i :: 0 <= i < |d| ==> d[i].header.file != m.file) ==> m.file !in FilesOf(d)
  {
    var e := d + [Segment(m, [])];
    forall f | f in FilesOf(d) + {m.file}
      ensures f in FilesOf(e)
    {
      if f == m.file {
        assert e[|d|].header.file == f;
      } else {
        var i :| 0 <= i < |d| && d[i].header.file == f;
        assert e[i].header.file == f;
      }
    }
  }

  lemma SavedOfOneMore(existing: map<nat, seq<Byte>>, d: seq<Segment>, m: Message)
    requires m.Header? && forall i :: 0 <= i < |d| ==> d[i].header.Header?
    ensures SavedOf(existing, d + [Segment(m, [])])
         == SavedOf(existing, d)
            + [Received(m.file, Base(if m.file in existing then Some(existing[m.file]) else None, m.startOffset))]
  {
    hide Base;
    assert (d + [Segment(m, [])])[..|d|] == d;
    var b := Base(if m.file in existing then Some(existing[m.file]) else None, m.startOffset);
    assert b + [] == b;
  }

  lemma DataStep(s: Session, t: Session, m: Message, d: seq<Segment>)
    requires m.FileData? && Acceptable(m) && t.open && t.existing == s.existing && d != []
    requires (forall i :: 0 <= i < |d| ==> d[i].header.Header?)
    requires t.files == SavedOf(s.existing, d) && t.wanted == s.wanted - FilesOf(d) && Counts(t, d)
    ensures var n := |d| - 1;
            var e := d[n := Segment(d[n].header, d[n].payload + Plain(m))];
            && Receive(t, m, Room(m)).open && Receive(t, m, Room(m)).existing == s.existing
            && Receive(t, m, Room(m)).files == SavedOf(s.existing, e)
            && Receive(t, m, Room(m)).wanted == s.wanted - FilesOf(e)
            && Counts(Receive(t, m, Room(m)), e)
  {
    assert Plain(m)[..|m.data|] == Plain(m);
    hide Base, Plain, Acceptable;
    var n := |d| - 1;
    var e := d[n := Segment(d[n].header, d[n].payload + Plain(m))];
    assert e[..n] == d[..n];
    assert forall i :: 0 <= i < |d| ==> e[i].header == d[i].header;
    assert FilesOf(e) == FilesOf(d);
    var b := Base(if d[n].header.file in s.existing then Some(s.existing[d[n].header.file]) else None,
                  d[n].header.startOffset);
    assert b + (d[n].payload + Plain(m)) == b + d[n].payload + Plain(m);
  }

  // ----- what the receiver rejects

  /** A byte garbled on the way closes the session, whatever was sent in whichever mode, and nothing
      is stored. */
  lemma GarbledByteClosesTheSession(s: Session, data: seq<Byte>, munge: int, i: nat, b: Byte, disk: nat)
    requires s.open
    requires var m := DataMessage(data, munge); m.FileData? && i < |m.data| && m.data[i] != b
    ensures var m := DataMessage(data, munge);
            var t := Receive(s, FileData(m.data[i := b], m.munge, m.checksum), disk);
            !t.open && t.files == s.files
  {
    hide Checksum, Plain;
    SingleByteChangeIsDetected(DataMessage(data, munge).data, i, b);
  }

  /** A data message leaves the session open if and only if a file is current, its sum is absent or
      right, its mode is 0 or 1, and the disk takes all of it; then it is stored, in plain. */
  lemma DataIsTakenIff(s: Session, data: seq<Byte>, munge: int, checksum: Option<nat>, disk: nat)
    requires s.open
    ensures var t := Receive(s, FileData(data, munge, checksum), disk);
            && (t.open <==> s.files != [] && (checksum == None || checksum == Some(Checksum(data)))
                            && (munge == 0 || munge == 1) && |data| <= disk)
            && (t.open ==>
                  && |t.files| == |s.files| && t.bytesDone == s.bytesDone + |data|
                  && t.files[|s.files| - 1].content
                     == s.files[|s.files| - 1].content + if munge == 1 then Munged(data) else data)
  {
    hide Checksum;
    assert data[..|data|] == data && Munged(data)[..|data|] == Munged(data);
  }

  /** A header leaves it open if and only if the file is wanted and can be created; then one file
      more is under way, one less is wanted, and its counts are as announced. */
  lemma HeaderIsTakenIff(s: Session, file: nat, size: nat, startOffset: nat, sendLength: int, disk: nat)
    requires s.open
    ensures var t := Receive(s, Header(file, size, startOffset, sendLength), disk);
            && (t.open <==> file in s.wanted && disk > 0)
            && (t.open ==>
                  && t.wanted == s.wanted - {file} && t.size == size && t.bytesDone == startOffset
                  && |t.files| == |s.files| + 1 && t.files[|s.files|].file == file)
  {
  }

  // ----- a whole session, end to end

  /** One file of a session: the downloader's partial file, the uploader's file, and the offset
      the upload starts from. */
  datatype Pair = Pair(local: Option<seq<Byte>>, mine: seq<Byte>, offset: nat)

  function Requests(pairs: seq<Pair>): seq<Request> {
    seq(|pairs|, i requires 0 <= i < |pairs| => UploadFrom(pairs[i].mine, pairs[i].offset))
  }

  function LocalFiles(pairs: seq<Pair>): map<nat, seq<Byte>> {
    map i: nat | i < |pairs| && pairs[i].local.Some? :: pairs[i].local.value
  }

  function Results(pairs: seq<Pair>): seq<Received> {
    seq(|pairs|, i requires 0 <= i < |pairs| =>
      Received(i, SavedFile(pairs[i].local, pairs[i].mine, pairs[i].offset)))
  }

  lemma {:induction false} CompleteSegments(pairs: seq<Pair>, k: nat)
    requires k <= |pairs|
    ensures var d := Complete(Requests(pairs), k);
            && |d| == k
            && (forall i :: 0 <= i < k ==> d[i].header == HeaderFor(Requests(pairs), i))
            && (forall i :: 0 <= i < k ==> d[i].payload == Target(Requests(pairs)[i]))
    decreases k
  {
    hide Target;
    if k > 0 {
      UploadsAreOpen(pairs);
      CompleteSegments(pairs, k - 1);
    }
  }

  lemma UploadsAreOpen(pairs: seq<Pair>)
    ensures forall i :: 0 <= i < |pairs| ==> Requests(pairs)[i].content.Some?
  {
  }

  lemma {:induction false} SavedOfSegments(existing: map<nat, seq<Byte>>, d: seq<Segment>, i: nat)
    requires (forall j :: 0 <= j < |d| ==> d[j].header.Header?) && i < |d|
    ensures var h := d[i].header;
            SavedOf(existing, d)[i]
            == Received(h.file, Base(if h.file in existing then Some(existing[h.file]) else None, h.startOffset)
                                + d[i].payload)
    decreases |d|
  {
    hide Base;
    if i < |d| - 1 {
      SavedOfSegments(existing, d[..|d| - 1], i);
    }
  }

  /** However the drains, pauses, reads and resumptions went: when the uploader has finished and
      its messages have arrived, every file was saved, from the offset its upload started at. */
  lemma SessionDeliversEveryFile(pairs: seq<Pair>, wanted: set<nat>, munge: int, events: seq<Event>)
    requires forall i: nat :: i in wanted <==> i < |pairs|
    requires var u := Run(Fresh(munge), events);
             u.connected && u.finishing && u.files == Requests(pairs)
    ensures var u := Run(Fresh(munge), events);
            var s := Session(wanted, LocalFiles(pairs), [], -1, -1, true);
            var t := ReceiveAll(s, u.out);
            && t.open && t.wanted == {} && t.files == Results(pairs)
            && (pairs != [] && pairs[|pairs| - 1].offset <= |pairs[|pairs| - 1].mine| ==>
                  t.size == t.bytesDone == |pairs[|pairs| - 1].mine|)
  {
    hide Base, Target, Receive, SavedOf, UploadProofs.Exact;
    var u := Run(Fresh(munge), events);
    var s := Session(wanted, LocalFiles(pairs), [], -1, -1, true);
    var d := Decode(u.out);
    UploadProofs.FinishedUploadIsComplete(munge, events);
    CompleteSegments(pairs, |pairs|);
    RunIsHonest(munge, events);
    ReceivedIsDecoded(s, u.out);
    forall i | 0 <= i < |pairs|
      ensures SavedOf(LocalFiles(pairs), d)[i] == Results(pairs)[i]
    {
      SavedOfSegments(LocalFiles(pairs), d, i);
      SavedSegment(pairs, i);
    }
    if pairs != [] && pairs[|pairs| - 1].offset <= |pairs[|pairs| - 1].mine| {
      LastCounts(pairs, d);
    }
    forall i | i in wanted
      ensures i in FilesOf(d)
    {
      assert d[i].header.file == i;
    }
  }

  lemma LastCounts(pairs: seq<Pair>, d: seq<Segment>)
    requires pairs != [] && |d| == |pairs| && pairs[|pairs| - 1].offset <= |pairs[|pairs| - 1].mine|
    requires var i := |pairs| - 1;
             d[i].header == HeaderFor(Requests(pairs), i) && d[i].payload == Target(Requests(pairs)[i])
    ensures var last, mine := d[|d| - 1], pairs[|pairs| - 1].mine;
            last.header.size == last.header.startOffset + |last.payload| == |mine|
  {
  }

  lemma SavedSegment(pairs: seq<Pair>, i: nat)
    requires i < |pairs|
    ensures var f := UploadFrom(pairs[i].mine, pairs[i].offset);
            var h := HeaderFor(Requests(pairs), i);
            && h.file == i && h.startOffset == f.offset
            && (if i in LocalFiles(pairs) then Some(LocalFiles(pairs)[i]) else None) == pairs[i].local
            && SavedFile(pairs[i].local, pairs[i].mine, f.offset) == Base(pairs[i].local, f.offset) + Target(f)
  {
    hide Base, Target;
  }

  /** And when the offsets were negotiated from the partial files, failed hashes included, every
      saved file is correct: of the uploader's length, the uploader's file if it was sent from the
      start, and else the uploader's file exactly if the unchecked beginning agrees. */
  lemma SessionResumesCorrectly(pairs: seq<Pair>, wanted: set<nat>, p: nat, munge: int, events: seq<Event>)
    requires forall i: nat :: i in wanted <==> i < |pairs|
    requires var u := Run(Fresh(munge), events);
             u.connected && u.finishing && u.files == Requests(pairs)
    requires forall i :: 0 <= i < |pairs| ==>
               var Pair(local, mine, offset) := pairs[i];
               && Negotiated(local, mine, p, offset)
               && (local.Some? ==> NoCollision(local.value, mine, ComparedBytes(|local.value|, p)))
    ensures var t := ReceiveAll(Session(wanted, LocalFiles(pairs), [], -1, -1, true), Run(Fresh(munge), events).out);
            && t.open && t.wanted == {} && |t.files| == |pairs|
            && forall i :: 0 <= i < |pairs| ==>
                 && t.files[i].file == i
                 && Correct(pairs[i].local, pairs[i].mine, p, pairs[i].offset, t.files[i].content)
  {
    hide Negotiated, NoCollision, Correct, SavedFile, Run;
    SessionDeliversEveryFile(pairs, wanted, munge, events);
    forall i | 0 <= i < |pairs|
      ensures Correct(pairs[i].local, pairs[i].mine, p, pairs[i].offset, Results(pairs)[i].content)
    {
      ResumeIsCorrect(pairs[i].local, pairs[i].mine, p, pairs[i].offset);
    }
  }
}
