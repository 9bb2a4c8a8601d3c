/** The two threads of AsyncDataIO as a state machine. The main thread pushes bytes through a
    socket and commands through a mutex-protected queue; the I/O thread puts the two streams
    together again. One event is one atomic step of either thread, so a sequence of events is
    an interleaving, with any partial sends, receives, reads and writes. */
module AsyncSpec {
  import opened Machine

  const BUFFER_SIZE: nat := 4096
  const NO_LIMIT: nat := 0xFFFF_FFFF
  const MAX_SEND: nat := 0x7FFF_FFFF   // Write returns how many bytes it sent as an int32

  // ----- calls, commands, and the slave's trace

  datatype Whence = FromStart | FromCurrent | FromEnd | OtherWhence

  datatype Kind = Seek(offset: int, whence: Whence) | Flush | Shutdown | Unknown

  /** A command and the main thread's byte count when it was issued. */
  datatype Command = Command(location: nat, kind: Kind)

  datatype Call = WriteCall(bytes: seq<Byte>) | CommandCall(kind: Kind)

  /** What a slave device sees: one byte, or one command. */
  datatype Item = Data(byte: Byte) | Do(kind: Kind)

  function Items(bytes: seq<Byte>): (s: seq<Item>)
    ensures |s| == |bytes|
  {
    seq(|bytes|, i requires 0 <= i < |bytes| => Data(bytes[i]))
  }

  function CallItems(c: Call): seq<Item> {
    match c
    case WriteCall(bytes) => Items(bytes)
    case CommandCall(kind) => [Do(kind)]
  }

  /** The trace a caller asks for: its calls in order. */
  function Flatten(calls: seq<Call>): seq<Item> {
    if calls == [] then [] else Flatten(calls[..|calls| - 1]) + CallItems(calls[|calls| - 1])
  }

  // ----- the slave device: a file, with one position for reads and writes

  datatype Device = Device(contents: seq<Byte>, pos: nat, open: bool) {
    function Write(bytes: seq<Byte>): Device {
      if bytes == [] || !open then this
      else
        var padded := if pos <= |contents| then contents else contents + seq(pos - |contents|, _ => 0);
        var end := pos + |bytes|;
        Device(padded[..pos] + bytes + (if end <= |padded| then padded[end..] else []), end, true)
    }

    function Read(n: nat): Device { this.(pos := pos + n) }

    function Perform(kind: Kind): Device {
      match kind
      case Seek(offset, whence) =>
        var base := if whence == FromStart then 0 else if whence == FromCurrent then pos else |contents|;
        if open && whence != OtherWhence && base + offset >= 0 then this.(pos := base + offset) else this
      case Flush => this
      case Shutdown => this.(open := false)
      case Unknown => this
    }

    function Apply(item: Item): Device {
      match item
      case Data(byte) => Write([byte])
      case Do(kind) => Perform(kind)
    }

    function ApplyAll(items: seq<Item>): Device {
      if items == [] then this else ApplyAll(items[..|items| - 1]).Apply(items[|items| - 1])
    }

    /** The same calls made synchronously. */
    function CallAll(calls: seq<Call>): Device {
      if calls == [] then this
      else
        var d := CallAll(calls[..|calls| - 1]);
        match calls[|calls| - 1]
        case WriteCall(bytes) => d.Write(bytes)
        case CommandCall(kind) => d.Perform(kind)
    }
  }

  // ----- the state of both threads

  /** A buffer's valid bytes and the index of the next one to read. */
  datatype Buffer = Buffer(data: seq<Byte>, readIdx: nat) {
    predicate Valid() { readIdx <= |data| <= BUFFER_SIZE }

    function Unread(): seq<Byte>
      requires Valid()
    {
      data[readIdx..]
    }

    function Free(): int { BUFFER_SIZE - |data| }

    function Append(bytes: seq<Byte>): Buffer { Buffer(data + bytes, readIdx) }

    /** Consumes n bytes; an empty buffer starts over. */
    function Skip(n: nat): Buffer {
      if readIdx + n == |data| then Buffer([], 0) else Buffer(data, readIdx + n)
    }
  }

  /** Where the I/O thread is in one turn of its loop. */
  datatype Pc = Waiting | Reading | Writing | Receiving | Sending | Running | Exited(done: bool)

  datatype State = State(
    // main thread: sent is what the socket took; counted lags by the Write in progress
    calls: seq<Call>, uncounted: nat, counted: nat, closed: bool,
    // shared
    wire: seq<Byte>, commands: seq<Command>,
    // I/O thread
    pc: Pc, bound: nat, curCmd: Command, ioWritten: nat, exitWhenDone: bool, keepGoing: bool,
    fromMain: Buffer, fromSlave: Buffer,
    // the slave device, what it was made to do, and the bytes that come back
    device: Device, trace: seq<Item>, sourced: seq<Byte>, delivered: seq<Byte>)

  function Initial(device: Device): State {
    State([], 0, 0, false, [], [], Waiting, 0, Command(0, Unknown), 0, false, true,
          Buffer([], 0), Buffer([], 0), device, [], [], [])
  }

  datatype Event =
    | MainSend(bytes: seq<Byte>)          // Write: the socket takes these bytes
    | MainCount                           // Write: the byte count catches up
    | MainEnqueue(kind: Kind)             // Seek, FlushOutput, Shutdown
    | MainClose                           // the main thread's end of the socket goes away
    | Pulse(bytes: seq<Byte>, allowPartial: bool)   // WriteToMainThread, from InternalThreadPulse
    | Check                               // the locked look at the command queue
    | SlaveRead(bytes: seq<Byte>)
    | SlaveWrite(n: nat, present: bool)   // present: the slave has a descriptor to write to
    | Receive(n: nat)
    | ReceiveEnd                          // ReceiveData reports an error or the end
    | SendBack(n: nat)
    | RunCommand
    | Fail                                // any error exit of the loop

  predicate Enabled(s: State, e: Event) {
    match e
    case MainSend(bytes) => !s.closed && s.uncounted == 0 && 0 < |bytes| <= MAX_SEND
    case MainCount => true
    case MainEnqueue(kind) => s.uncounted == 0 && !kind.Unknown?
    case MainClose => s.uncounted == 0
    case Pulse(_, _) => s.pc == Waiting
    case Check => s.pc == Waiting
    case SlaveRead(bytes) =>
      s.pc == Reading && |bytes| <= s.fromSlave.Free() && (bytes != [] ==> s.device.open)
    case SlaveWrite(n, present) =>
      && s.pc == Writing
      && n <= s.bound && n <= |s.fromMain.data| - s.fromMain.readIdx
      && (n > 0 ==> present && s.device.open)
    case Receive(n) => s.pc == Receiving && n <= |s.wire| && n <= s.fromMain.Free()
    case ReceiveEnd => s.pc == Receiving
    case SendBack(n) => s.pc == Sending && n <= |s.fromSlave.data| - s.fromSlave.readIdx
    case RunCommand => s.pc == Running
    case Fail => !s.pc.Exited? && s.pc != Running
  }

  /** How many of the offered bytes WriteToMainThread takes. */
  function Taken(s: State, n: nat, allowPartial: bool): (k: nat)
    requires s.fromSlave.Valid()
    ensures k <= n && k <= s.fromSlave.Free()
  {
    if n <= s.fromSlave.Free() then n else if allowPartial then s.fromSlave.Free() else 0
  }

  /** The queue check: pop the head when its place is reached, else measure the distance to it
      in 32 bits. */
  function Checked(s: State): State {
    if s.commands != [] then
      var head := s.commands[0];
      if head.location <= s.ioWritten then
        s.(bound := 0, curCmd := head, commands := s.commands[1..], pc := Running)
      else
        var bound := (head.location - s.ioWritten) % TWO32;
        s.(bound := bound, pc := if bound > 0 then Reading else Running)
    else
      var stop := s.exitWhenDone && s.fromMain.readIdx == |s.fromMain.data|;
      s.(bound := NO_LIMIT, pc := Reading, keepGoing := s.keepGoing && !stop)
  }

  function LoopEnd(s: State): Pc { if s.keepGoing then Waiting else Exited(true) }

  /** Writes n buffered bytes to the slave. */
  function Written(s: State, n: nat): State
    requires s.fromMain.Valid() && n <= |s.fromMain.data| - s.fromMain.readIdx
  {
    var chunk := s.fromMain.Unread()[..n];
    s.(device := s.device.Write(chunk), trace := s.trace + Items(chunk), ioWritten := s.ioWritten + n,
       fromMain := if n == 0 then s.fromMain else s.fromMain.Skip(n), pc := Receiving)
  }

  /** Leaves when the buffer is empty after the end of the main thread's stream. */
  function LeaveIfDone(s: State, present: bool): State {
    if present && s.exitWhenDone && s.fromMain.readIdx == |s.fromMain.data| then s.(pc := Exited(true)) else s
  }

  function SentBack(s: State, n: nat): State
    requires s.fromSlave.Valid() && n <= |s.fromSlave.data| - s.fromSlave.readIdx
  {
    var chunk := s.fromSlave.Unread()[..n];
    s.(delivered := s.delivered + chunk,
       fromSlave := if n == 0 then s.fromSlave else s.fromSlave.Skip(n), pc := LoopEnd(s))
  }

  function Ran(s: State): State {
    s.(device := s.device.Perform(s.curCmd.kind),
       trace := if s.curCmd.kind.Unknown? then s.trace else s.trace + [Do(s.curCmd.kind)],
       pc := LoopEnd(s))
  }

  function Step(s: State, e: Event): State
    requires Enabled(s, e) && s.fromMain.Valid() && s.fromSlave.Valid()
  {
    match e
    case MainSend(bytes) =>
      s.(calls := s.calls + [WriteCall(bytes)], wire := s.wire + bytes, uncounted := |bytes|)
    case MainCount => s.(counted := s.counted + s.uncounted, uncounted := 0)
    case MainEnqueue(kind) =>
      s.(calls := s.calls + [CommandCall(kind)], commands := s.commands + [Command(s.counted, kind)])
    case MainClose => s.(closed := true)
    case Pulse(bytes, allowPartial) =>
      var taken := bytes[..Taken(s, |bytes|, allowPartial)];
      s.(fromSlave := s.fromSlave.Append(taken), sourced := s.sourced + taken)
    case Check => Checked(s)
    case SlaveRead(bytes) =>
      s.(fromSlave := s.fromSlave.Append(bytes), sourced := s.sourced + bytes,
         device := s.device.Read(|bytes|), pc := Writing)
    case SlaveWrite(n, present) => LeaveIfDone(Written(s, n), present)
    case Receive(n) =>
      s.(fromMain := s.fromMain.Append(s.wire[..n]), wire := s.wire[n..], pc := Sending)
    case ReceiveEnd => s.(exitWhenDone := true, pc := Sending)
    case SendBack(n) => SentBack(s, n)
    case RunCommand => Ran(s)
    case Fail => s.(pc := Exited(false))
  }

  /** Steps that are not possible have no effect, so every sequence of events is a run. */
  function Next(s: State, e: Event): State {
    if Enabled(s, e) && s.fromMain.Valid() && s.fromSlave.Valid() then Step(s, e) else s
  }

  function Run(s: State, events: seq<Event>): State {
    if events == [] then s else Next(Run(s, events[..|events| - 1]), events[|events| - 1])
  }
}
