/** AsyncDataIO itself: both buffers, the indices, the shared queue and the byte counts, updated
    in place. Each method is one atomic step and is proved to be that step of AsyncSpec, so the
    theorems of AsyncSafety and AsyncOutcome hold of the object. */
module AsyncDataIO {
  import opened Machine
  import opened AsyncSpec
  import AsyncSafety

  /** A 4096-byte buffer, how many of its bytes are valid, and which to read next. */
  class ByteBuffer {
    const bytes: array<Byte>
    var readIdx: nat
    var numValid: nat

    ghost predicate Valid()
      reads this
    {
      bytes.Length == BUFFER_SIZE && readIdx <= numValid <= BUFFER_SIZE
    }

    ghost function View(): (b: Buffer)
      requires Valid()
      reads this, bytes
      ensures b.Valid() && b.readIdx == readIdx && |b.data| == numValid
    {
      Buffer(bytes[..numValid], readIdx)
    }

    constructor ()
      ensures Valid() && View() == Buffer([], 0) && fresh(bytes)
    {
      bytes := new Byte[BUFFER_SIZE];
      readIdx, numValid := 0, 0;
    }

    /** memcpy to the end of the valid bytes. */
    method Append(more: seq<Byte>)
      requires Valid() && |more| <= BUFFER_SIZE - numValid
      modifies this, bytes
      ensures Valid() && View() == old(View()).Append(more)
    {
      forall i | 0 <= i < |more| {
        bytes[numValid + i] := more[i];
      }
      numValid := numValid + |more|;
    }

    method Peek(n: nat) returns (chunk: seq<Byte>)
      requires Valid() && n <= numValid - readIdx
      ensures chunk == View().Unread()[..n]
    {
      chunk := bytes[readIdx..readIdx + n];
    }

    /** Advances the read index past n bytes; an emptied buffer starts over. */
    method Skip(n: nat)
      requires Valid() && n <= numValid - readIdx
      modifies this
      ensures Valid() && View() == if n == 0 then old(View()) else old(View()).Skip(n)
    {
      if n > 0 {
        readIdx := readIdx + n;
        if readIdx == numValid {
          readIdx, numValid := 0, 0;
        }
      }
    }
  }

  class AsyncDataIO {
    // main thread
    var mainThreadBytesWritten: nat
    var writeInProgress: nat   // accepted by the socket, not counted yet
    var closed: bool
    // shared by the two threads
    var socket: seq<Byte>
    var asyncCommands: seq<Command>
    // I/O thread
    var pc: Pc
    var bytesUntilNextCommand: nat
    var curCmd: Command
    var ioThreadBytesWritten: nat
    var exitWhenDoneWriting: bool
    var keepGoing: bool
    const fromMainThread: ByteBuffer
    const fromSlaveIO: ByteBuffer
    var slaveIO: Device

    ghost var calls: seq<Call>
    ghost var trace: seq<Item>
    ghost var sourced: seq<Byte>
    ghost var delivered: seq<Byte>

    ghost predicate Valid()
      reads fromMainThread, fromSlaveIO
    {
      && fromMainThread.Valid() && fromSlaveIO.Valid()
      && fromMainThread != fromSlaveIO && fromMainThread.bytes != fromSlaveIO.bytes
    }

    ghost function View(): State
      requires Valid()
      reads this, fromMainThread, fromSlaveIO, fromMainThread.bytes, fromSlaveIO.bytes
    {
      State(calls, writeInProgress, mainThreadBytesWritten, closed, socket, asyncCommands,
            pc, bytesUntilNextCommand, curCmd, ioThreadBytesWritten, exitWhenDoneWriting, keepGoing,
            fromMainThread.View(), fromSlaveIO.View(), slaveIO, trace, sourced, delivered)
    }

    constructor (device: Device)
      ensures Valid() && View() == Initial(device)
      ensures fresh(fromMainThread) && fresh(fromMainThread.bytes)
      ensures fresh(fromSlaveIO) && fresh(fromSlaveIO.bytes)
    {
      mainThreadBytesWritten, writeInProgress, closed, socket, asyncCommands := 0, 0, false, [], [];
      pc, bytesUntilNextCommand, curCmd, ioThreadBytesWritten := Waiting, 0, Command(0, Unknown), 0;
      exitWhenDoneWriting, keepGoing := false, true;
      fromMainThread := new ByteBuffer();
      fromSlaveIO := new ByteBuffer();
      slaveIO := device;
      calls, trace, sourced, delivered := [], [], [], [];
    }

    // ----- main thread

    /** Write, first half: the socket accepts some bytes. */
    method SendToThread(bytes: seq<Byte>)
      requires Valid() && Enabled(View(), MainSend(bytes))
      modifies this
      ensures Valid() && View() == Step(old(View()), MainSend(bytes))
    {
      socket := socket + bytes;
      writeInProgress := |bytes|;
      calls := calls + [WriteCall(bytes)];
    }

    /** Write, second half: they are counted. */
    method CountWritten()
      requires Valid()
      modifies this
      ensures Valid() && View() == Step(old(View()), MainCount)
    {
      mainThreadBytesWritten := mainThreadBytesWritten + writeInProgress;
      writeInProgress := 0;
    }

    /** Seek, FlushOutput and Shutdown: queue a command tagged with the byte count. */
    method Enqueue(kind: Kind)
      requires Valid() && Enabled(View(), MainEnqueue(kind))
      modifies this
      ensures Valid() && View() == Step(old(View()), MainEnqueue(kind))
    {
      asyncCommands := asyncCommands + [Command(mainThreadBytesWritten, kind)];
      calls := calls + [CommandCall(kind)];
    }

    method Close()
      requires Valid() && Enabled(View(), MainClose)
      modifies this
      ensures Valid() && View() == Step(old(View()), MainClose)
    {
      closed := true;
    }

    // ----- I/O thread

    /** Puts bytes in front of the main thread as if they came from the slave. */
    method WriteToMainThread(bytes: seq<Byte>, allowPartial: bool) returns (numToWrite: nat)
      requires Valid() && pc == Waiting
      modifies this, fromSlaveIO, fromSlaveIO.bytes
      ensures Valid() && View() == Step(old(View()), Pulse(bytes, allowPartial))
      ensures AsyncSafety.TakesWhatFits(old(View()), View(), bytes, allowPartial)
      ensures |bytes| <= 4096 - old(fromSlaveIO.numValid) ==> numToWrite == |bytes|
      ensures |bytes| > 4096 - old(fromSlaveIO.numValid) ==>
        numToWrite == if allowPartial then 4096 - old(fromSlaveIO.numValid) else 0
    {
      AsyncSafety.PulseTakesWhatFits(View(), bytes, allowPartial);
      hide AsyncSafety.TakesWhatFits;
      var freeSpaceAvailable := BUFFER_SIZE - fromSlaveIO.numValid;
      if !allowPartial && freeSpaceAvailable < |bytes| {
        numToWrite := 0;
      } else {
        numToWrite := if |bytes| < freeSpaceAvailable then |bytes| else freeSpaceAvailable;
      }
      fromSlaveIO.Append(bytes[..numToWrite]);
      sourced := sourced + bytes[..numToWrite];
    }

    /** How many bytes until the next command; pops it when its place is reached. */
    method CheckCommands()
      requires Valid() && pc == Waiting
      modifies this
      ensures Valid() && View() == Checked(old(View()))
    {
      hide ByteBuffer.Valid, ByteBuffer.View;
      var distance := NO_LIMIT;
      if asyncCommands != [] {
        var nextCmd := asyncCommands[0];
        if nextCmd.location <= ioThreadBytesWritten {
          distance := 0;
          curCmd, asyncCommands := nextCmd, asyncCommands[1..];
        } else {
          distance := (nextCmd.location - ioThreadBytesWritten) % TWO32;
        }
      } else if exitWhenDoneWriting && fromMainThread.readIdx == fromMainThread.numValid {
        keepGoing := false;
      }
      bytesUntilNextCommand := distance;
      pc := if distance > 0 then Reading else Running;
    }

    /** Reads from the slave into the from-slave buffer. */
    method ReadFromSlave(bytes: seq<Byte>)
      requires Valid() && Enabled(View(), SlaveRead(bytes))
      modifies this, fromSlaveIO, fromSlaveIO.bytes
      ensures Valid() && View() == Step(old(View()), SlaveRead(bytes))
    {
      slaveIO := slaveIO.Read(|bytes|);
      fromSlaveIO.Append(bytes);
      sourced := sourced + bytes;
      pc := Writing;
    }

    /** Writes n of the eligible bytes to the slave. */
    method WriteChunk(n: nat)
      requires Valid() && n <= fromMainThread.numValid - fromMainThread.readIdx
      modifies this, fromMainThread
      ensures Valid() && View() == Written(old(View()), n)
    {
      hide Device.Write, Items;
      var chunk := fromMainThread.Peek(n);
      slaveIO := slaveIO.Write(chunk);
      ioThreadBytesWritten := ioThreadBytesWritten + n;
      trace := trace + Items(chunk);
      pc := Receiving;
      fromMainThread.Skip(n);
    }

    /** The write of one turn, after which the thread may leave. */
    method WriteToSlave(n: nat, present: bool)
      requires Valid() && Enabled(View(), SlaveWrite(n, present))
      modifies this, fromMainThread
      ensures Valid() && View() == LeaveIfDone(Written(old(View()), n), present)
    {
      hide Written;
      WriteChunk(n);
      if present && fromMainThread.numValid == fromMainThread.readIdx && exitWhenDoneWriting {
        pc := Exited(true);
      }
    }

    /** Receives n bytes from the main thread's socket. */
    method ReceiveFromMain(n: nat)
      requires Valid() && Enabled(View(), Receive(n))
      modifies this, fromMainThread, fromMainThread.bytes
      ensures Valid() && View() == Step(old(View()), Receive(n))
    {
      fromMainThread.Append(socket[..n]);
      socket := socket[n..];
      pc := Sending;
    }

    method ReceiveFails()
      requires Valid() && pc == Receiving
      modifies this
      ensures Valid() && View() == Step(old(View()), ReceiveEnd)
    {
      exitWhenDoneWriting := true;
      pc := Sending;
    }

    /** Sends n bytes of the from-slave buffer to the main thread; the turn ends. */
    method SendToMain(n: nat)
      requires Valid() && Enabled(View(), SendBack(n))
      modifies this, fromSlaveIO
      ensures Valid() && View() == SentBack(old(View()), n)
    {
      var chunk := fromSlaveIO.Peek(n);
      fromSlaveIO.Skip(n);
      delivered := delivered + chunk;
      pc := if keepGoing then Waiting else Exited(true);
    }

    /** Carries out the popped command; the turn ends. */
    method RunCurrentCommand()
      requires Valid() && pc == Running
      modifies this
      ensures Valid() && View() == Ran(old(View()))
    {
      hide Device.Perform;
      slaveIO := slaveIO.Perform(curCmd.kind);
      trace := if curCmd.kind.Unknown? then trace else trace + [Do(curCmd.kind)];
      pc := if keepGoing then Waiting else Exited(true);
    }

    method Leave()
      requires Valid() && Enabled(View(), Fail)
      modifies this
      ensures Valid() && View() == Step(old(View()), Fail)
    {
      pc := Exited(false);
    }

    // ----- both threads, interleaved as a schedule says

    predicate CanPerform(e: Event)
      requires Valid()
      reads this, fromMainThread, fromSlaveIO, fromMainThread.bytes, fromSlaveIO.bytes
      ensures CanPerform(e) == Enabled(View(), e)
    {
      match e
      case MainSend(bytes) => !closed && writeInProgress == 0 && 0 < |bytes| <= MAX_SEND
      case MainCount => true
      case MainEnqueue(kind) => writeInProgress == 0 && !kind.Unknown?
      case MainClose => writeInProgress == 0
      case Pulse(_, _) => pc == Waiting
      case Check => pc == Waiting
      case SlaveRead(bytes) =>
        pc == Reading && |bytes| <= BUFFER_SIZE - fromSlaveIO.numValid && (bytes != [] ==> slaveIO.open)
      case SlaveWrite(n, present) =>
        && pc == Writing && n <= bytesUntilNextCommand
        && n <= fromMainThread.numValid - fromMainThread.readIdx && (n > 0 ==> present && slaveIO.open)
      case Receive(n) => pc == Receiving && n <= |socket| && n <= BUFFER_SIZE - fromMainThread.numValid
      case ReceiveEnd => pc == Receiving
      case SendBack(n) => pc == Sending && n <= fromSlaveIO.numValid - fromSlaveIO.readIdx
      case RunCommand => pc == Running
      case Fail => !pc.Exited? && pc != Running
    }

    method Perform(e: Event)
      requires Valid()
      modifies this, fromMainThread, fromSlaveIO, fromMainThread.bytes, fromSlaveIO.bytes
      ensures Valid() && View() == Next(old(View()), e)
    {
      hide Checked, Written, LeaveIfDone, SentBack, Ran, Device.Write, Device.Perform;
      if CanPerform(e) {
        match e
        case MainSend(bytes) => SendToThread(bytes);
        case MainCount => CountWritten();
        case MainEnqueue(kind) => Enqueue(kind);
        case MainClose => Close();
        case Pulse(bytes, allowPartial) => var _ := WriteToMainThread(bytes, allowPartial);
        case Check => CheckCommands();
        case SlaveRead(bytes) => ReadFromSlave(bytes);
        case SlaveWrite(n, present) => WriteToSlave(n, present);
        case Receive(n) => ReceiveFromMain(n);
        case ReceiveEnd => ReceiveFails();
        case SendBack(n) => SendToMain(n);
        case RunCommand => RunCurrentCommand();
        case Fail => Leave();
      }
    }

    /** Any interleaving of the two threads is a run of the state machine. */
    method Execute(events: seq<Event>)
      requires Valid()
      modifies this, fromMainThread, fromSlaveIO, fromMainThread.bytes, fromSlaveIO.bytes
      ensures Valid() && View() == Run(old(View()), events)
    {
      hide Next;
      var i := 0;
      while i < |events|
        invariant 0 <= i <= |events|
        invariant Valid() && View() == Run(old(View()), events[..i])
      {
        Perform(events[i]);
        assert events[..i + 1][..i] == events[..i];
        i := i + 1;
      }
      assert events[..i] == events;
    }
  }

  /** A fresh object, under any schedule with fewer than 2^32 bytes under way: the slave has seen
      a prefix of the calls in the caller's order. */
  method RunFresh(device: Device, events: seq<Event>) returns (io: AsyncDataIO)
    requires AsyncSafety.Unwrapped(Initial(device), events)
    ensures fresh(io) && io.Valid() && io.View() == Run(Initial(device), events)
    ensures io.trace <= Flatten(io.calls)
  {
    io := new AsyncDataIO(device);
    io.Execute(events);
    AsyncSafety.TraceIsPrefix(device, events);
  }
}
