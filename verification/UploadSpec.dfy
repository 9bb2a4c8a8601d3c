/** The uploading side of a transfer: a cursor over the requested files that sends a header for
    each and then its bytes in chunks, one per drain of the output queue. */
module UploadSpec {
  import opened Machine
  import opened Payload
  import opened Option

  const CHUNK_SIZE: int := 8192

  /** One requested file: its bytes here, if it can be opened, and the range to send. */
  datatype Request = Request(content: Option<seq<Byte>>, offset: nat, maxBytes: int)

  /** startOffset 0 and sendLength -1 stand for absent fields; munge 0 for an absent "mm", and no
      checksum for an absent "chk". */
  datatype Message =
    | Header(file: nat, size: nat, startOffset: nat, sendLength: int)
    | FileData(data: seq<Byte>, munge: int, checksum: Option<nat>)

  datatype Upload = Upload(
    files: seq<Request>, listed: bool, next: nat,
    bytesDone: int, fileSize: int, startOffset: nat, maxBytes: int,
    waitingOnLocal: bool, finishing: bool, munge: int, connected: bool,
    drains: nat,   // drain notifications requested and not delivered yet
    out: seq<Message>)

  function Fresh(munge: int): Upload {
    Upload([], false, 0, -1, -1, 0, -1, true, false, munge, true, 0, [])
  }

  /** What one read yields: bytes, 0 at the end of the file, or -1 for an error. */
  function ReadCount(content: Option<seq<Byte>>, pos: nat, toRead: nat, delivered: int): (n: int)
    ensures n > 0 ==> content.Some? && n <= toRead && pos + n <= |content.value|
    ensures n == 0 <==> content.Some? && (toRead == 0 || pos >= |content.value|)
  {
    if content.None? then -1
    else if toRead == 0 || pos >= |content.value| then 0
    else if delivered <= 0 then -1
    else
      var n := if delivered < toRead then delivered else toRead;
      if n < |content.value| - pos then n else |content.value| - pos
  }

  function ToRead(u: Upload): int {
    if u.maxBytes < 0 then CHUNK_SIZE
    else
      var remaining := u.maxBytes - (u.bytesDone - u.startOffset);
      if CHUNK_SIZE > remaining then remaining else CHUNK_SIZE
  }

  function DataMessage(data: seq<Byte>, munge: int): Message {
    var sent := if munge == MUNGE_MODE_XOR then Munged(data) else data;
    FileData(sent, if munge == MUNGE_MODE_XOR then munge else MUNGE_MODE_NONE, Some(Checksum(sent)))
  }

  function Aborted(u: Upload): Upload {
    u.(connected := false, waitingOnLocal := false, bytesDone := -1, fileSize := -1)
  }

  function HeaderFor(files: seq<Request>, i: nat): Message
    requires i < |files| && files[i].content.Some?
  {
    Header(i, |files[i].content.value|, files[i].offset, if files[i].maxBytes >= 0 then files[i].maxBytes else -1)
  }

  predicate Indexed(u: Upload) {
    u.next <= |u.files| && (u.bytesDone >= 0 ==> u.next > 0 && u.startOffset <= u.bytesDone)
  }

  /** One DoUploadAux call: the new state, and whether to call again. */
  function Aux(u: Upload, delivered: int): (Upload, bool)
    requires Indexed(u)
  {
    if u.waitingOnLocal then (u, false)
    else if !u.connected then (Aborted(u), false)
    else if u.bytesDone >= 0 then
      if u.maxBytes >= 0 && u.bytesDone - u.startOffset >= u.maxBytes then
        (u.(bytesDone := -1, fileSize := -1), true)
      else
        var content := u.files[u.next - 1].content;
        var n := ReadCount(content, u.bytesDone, ToRead(u), delivered);
        if n > 0 then
          (u.(out := u.out + [DataMessage(content.value[u.bytesDone..u.bytesDone + n], u.munge)],
              drains := u.drains + 1, bytesDone := u.bytesDone + n), false)
        else if n == 0 then (u.(bytesDone := -1, fileSize := -1), true)
        else (Aborted(u), false)
    else if u.next < |u.files| then
      var f := u.files[u.next];
      var v := u.(next := u.next + 1, bytesDone := f.offset, startOffset := f.offset, maxBytes := f.maxBytes);
      if f.content.Some? then
        (v.(fileSize := |f.content.value|, out := u.out + [HeaderFor(u.files, u.next)]), true)
      else (v, false)
    else (u.(finishing := true, drains := u.drains + 1), false)
  }

  function Measure(u: Upload): int
    requires Indexed(u)
  {
    2 * (|u.files| - u.next) + if u.bytesDone >= 0 then 1 else 0
  }

  lemma AuxMakesProgress(u: Upload, delivered: int)
    requires Indexed(u)
    ensures Indexed(Aux(u, delivered).0)
    ensures Aux(u, delivered).1 ==> 0 <= Measure(Aux(u, delivered).0) < Measure(u)
  {
  }

  /** DoUpload: Aux until it says to stop; device(k) is what the k-th call would read. */
  function DoUpload(u: Upload, device: nat -> int, k: nat): (v: Upload)
    requires Indexed(u)
    ensures Indexed(v)
    decreases Measure(u)
  {
    AuxMakesProgress(u, device(k));
    var (v, again) := Aux(u, device(k));
    if again then DoUpload(v, device, k + 1) else v
  }

  datatype Event =
    | Start(files: seq<Request>, device: nat -> int)   // the file list has been verified
    | Drained(device: nat -> int)
    | Pause                                            // RequeueTransfer
    | Begin(enabled: bool, device: nat -> int)         // BeginTransfer

  function Next(u: Upload, e: Event): (v: Upload)
    requires Indexed(u)
    ensures Indexed(v)
  {
    match e
    case Start(files, device) =>
      if u.listed || !u.connected then u
      else if files == [] then Aborted(u)   // nothing was asked for
      else DoUpload(u.(files := files, listed := true, next := 0, bytesDone := -1, fileSize := -1), device, 0)
    case Drained(device) =>
      if u.drains == 0 || !u.connected then u
      else
        var v := u.(drains := u.drains - 1);
        if u.finishing then Aborted(v) else DoUpload(v, device, 0)
    case Pause => u.(waitingOnLocal := true)
    case Begin(enabled, device) =>
      if enabled && u.waitingOnLocal then
        var v := u.(waitingOnLocal := false);
        if u.connected && u.listed then DoUpload(v, device, 0) else v
      else u
  }

  function Run(u: Upload, events: seq<Event>): (v: Upload)
    requires Indexed(u)
    ensures Indexed(v)
  {
    if events == [] then u else Next(Run(u, events[..|events| - 1]), events[|events| - 1])
  }

  // ----- what was sent, read back

  datatype Segment = Segment(header: Message, payload: seq<Byte>)

  function Plain(m: Message): seq<Byte>
    requires m.FileData?
  {
    if m.munge == MUNGE_MODE_XOR then Munged(m.data) else m.data
  }

  /** Each header with the concatenation of the unmunged payloads after it. */
  function Decode(out: seq<Message>): seq<Segment> {
    if out == [] then []
    else
      var d, m := Decode(out[..|out| - 1]), out[|out| - 1];
      if m.Header? then d + [Segment(m, [])]
      else if d == [] then []
      else d[|d| - 1 := Segment(d[|d| - 1].header, d[|d| - 1].payload + Plain(m))]
  }

  /** The range a request names. */
  function Target(f: Request): seq<Byte>
    requires f.content.Some?
  {
    var size := |f.content.value|;
    if f.offset >= size then []
    else if f.maxBytes >= 0 && f.offset + f.maxBytes < size then f.content.value[f.offset..f.offset + f.maxBytes]
    else f.content.value[f.offset..]
  }

  /** Header and whole range of each of the first k files that could be opened. */
  function Complete(files: seq<Request>, k: nat): seq<Segment>
    requires k <= |files|
  {
    if k == 0 then []
    else Complete(files, k - 1)
         + if files[k - 1].content.Some? then [Segment(HeaderFor(files, k - 1), Target(files[k - 1]))] else []
  }
}
