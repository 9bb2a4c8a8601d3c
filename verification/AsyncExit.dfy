/** What the I/O thread may leave behind when it exits: exactly which calls are always executed in
    full, and runs that show which are not. */
module AsyncExit {
  import opened Machine
  import opened AsyncSpec
  import opened AsyncSafety
  import opened AsyncTurns
  import AsyncOutcome
  import AsyncDistance

  // ----- leaving through the exit-when-done paths

  /** The end of the stream is only seen when the main thread closed and all bytes arrived. */
  ghost predicate HonestEnds(s: State, events: seq<Event>) {
    events == [] ||
    var before := events[..|events| - 1];
    && HonestEnds(s, before)
    && (events[|events| - 1].ReceiveEnd? ==> Run(s, before).closed && Run(s, before).wire == [])
  }

  ghost predicate Ending(s: State) {
    && s.fromMain.Valid()
    && (s.exitWhenDone ==> s.closed && s.wire == [])
    && (!s.keepGoing || s.pc == Exited(true) ==> s.exitWhenDone && s.fromMain.Unread() == [])
  }

  lemma EndingKeeps(s: State, e: Event)
    requires Ending(s) && s.fromSlave.Valid() && Enabled(s, e)
    requires e.ReceiveEnd? ==> s.closed && s.wire == []
    requires s.pc == Running ==> s.keepGoing
    ensures Ending(Step(s, e))
  {
    hide Device.Write, Device.Perform, Items, Taken;
    if e.SlaveWrite? {
      SkipUnread(s.fromMain, e.n);
    }
  }

  /** The thread only stops looping on a turn that found the queue empty. */
  lemma {:induction false} RunKeepsEnding(device: Device, events: seq<Event>)
    requires HonestEnds(Initial(device), events)
    ensures var s := Run(Initial(device), events);
            Ending(s) && Buffers(s) && (s.pc == Running || s.pc == Waiting ==> s.keepGoing)
  {
    if events != [] {
      var before, e := events[..|events| - 1], events[|events| - 1];
      var s := Run(Initial(device), before);
      RunKeepsEnding(device, before);
      hide Ending, Buffers, Device.Write, Device.Perform, Items, Taken;
      BuffersAreValid(s);
      if Enabled(s, e) {
        EndingKeeps(s, e);
        BuffersKeep(s, e);
      }
    }
  }

  lemma NothingLeftButCommands(s: State)
    requires Inv(s) && Ending(s) && s.pc == Exited(true)
    ensures Issued(s) == s.trace + Kinds(s.commands)
    ensures s.ioWritten == s.counted + s.uncounted
    ensures forall i :: 0 <= i < |s.commands| ==> s.commands[i].location == s.ioWritten
  {
    hide Flatten, Merge, Kinds;
    assert InFlight(s) == [];
    MergeNoBytes(s.ioWritten, s.commands);
  }

  /** After such an exit every byte sent was written to the slave, and any command that was not
      executed sits exactly at the end of the stream. */
  lemma ExitWhenDoneLosesNoByte(device: Device, events: seq<Event>)
    requires Unwrapped(Initial(device), events) && HonestEnds(Initial(device), events)
    requires Run(Initial(device), events).pc == Exited(true)
    ensures var s := Run(Initial(device), events);
            && Issued(s) == s.trace + Kinds(s.commands)
            && s.ioWritten == s.counted + s.uncounted
            && (forall i :: 0 <= i < |s.commands| ==> s.commands[i].location == s.ioWritten)
  {
    hide Inv, Ending, Flatten;
    InitialInv(device);
    RunKeeps(Initial(device), events);
    RunKeepsEnding(device, events);
    NothingLeftButCommands(Run(Initial(device), events));
  }

  /** Such an exit executed everything when the last thing asked for was a byte. */
  lemma LastByteIsExecuted(device: Device, events: seq<Event>)
    requires Unwrapped(Initial(device), events) && HonestEnds(Initial(device), events)
    requires var s := Run(Initial(device), events);
             && s.pc == Exited(true)
             && (Issued(s) == [] || Issued(s)[|Issued(s)| - 1].Data?)
    ensures var s := Run(Initial(device), events); s.trace == Issued(s)
  {
    hide Unwrapped, HonestEnds, Run, Flatten;
    var s := Run(Initial(device), events);
    ExitWhenDoneLosesNoByte(device, events);
    KindsAreCommands(s.commands);
    LastOf(s.trace, Kinds(s.commands));
    assert s.trace + [] == s.trace;
  }

  lemma LastOf(a: seq<Item>, b: seq<Item>)
    ensures b != [] ==> (a + b)[|a + b| - 1] == b[|b| - 1]
  {
  }

  lemma {:induction false} KindsAreCommands(cmds: seq<Command>)
    ensures |Kinds(cmds)| == |cmds| && forall i :: 0 <= i < |cmds| ==> Kinds(cmds)[i].Do?
  {
    if cmds != [] {
      KindsAreCommands(cmds[1..]);
    }
  }

  // ----- runs in which nothing is asked for after the close

  ghost predicate ClosedLast(s: State, events: seq<Event>) {
    events == [] ||
    var before := events[..|events| - 1];
    && ClosedLast(s, before)
    && (events[|events| - 1].MainEnqueue? ==> !Run(s, before).closed)
  }

  ghost predicate Fair(device: Device, events: seq<Event>) {
    && Unwrapped(Initial(device), events) && HonestEnds(Initial(device), events)
    && ClosedLast(Initial(device), events)
  }

  ghost predicate Writes(calls: seq<Call>) { exists i :: 0 <= i < |calls| && calls[i].WriteCall? }

  /** Without a write, the queue was empty when the thread began its last turn. */
  ghost predicate Quiet(s: State) {
    && (!Writes(s.calls) ==>
          && s.counted == s.uncounted == s.ioWritten == 0 && (forall c :: c in s.commands ==> c.location == 0)
          && (s.exitWhenDone && (s.pc == Reading || s.pc == Writing) ==> s.commands == [])
          && (s.pc == Exited(true) || !s.keepGoing ==> s.commands == []))
    && (s.exitWhenDone || s.pc == Exited(true) || !s.keepGoing ==> s.closed)
  }

  lemma StepStaysQuiet(s: State, e: Event)
    requires Quiet(s) && AsyncDistance.Tallied(s) && Enabled(s, e)
    requires (e.MainEnqueue? ==> !s.closed) && (e.ReceiveEnd? ==> s.closed)
    ensures Quiet(Step(s, e))
  {
    hide Device.Write, Device.Perform, Items, Taken, Flatten, Buffer.Append, Buffer.Skip, Writes;
    match e
    case MainSend(bytes) => WritesMore(s.calls, WriteCall(bytes));
    case MainEnqueue(kind) => WritesMore(s.calls, CommandCall(kind));
    case _ =>
  }

  lemma WritesMore(calls: seq<Call>, c: Call)
    ensures Writes(calls + [c]) <==> Writes(calls) || c.WriteCall?
  {
    if c.WriteCall? {
      assert (calls + [c])[|calls|].WriteCall?;
    } else if Writes(calls) {
      var i :| 0 <= i < |calls| && calls[i].WriteCall?;
      assert (calls + [c])[i].WriteCall?;
    }
  }

  lemma {:induction false} RunStaysQuiet(device: Device, events: seq<Event>)
    requires Fair(device, events)
    ensures Quiet(Run(Initial(device), events))
  {
    if events != [] {
      var s, e := Run(Initial(device), events[..|events| - 1]), events[|events| - 1];
      RunStaysQuiet(device, events[..|events| - 1]);
      AsyncDistance.RunTallies(device, events[..|events| - 1]);
      hide Quiet, Step;
      if Enabled(s, e) {
        StepStaysQuiet(s, e);
      }
    }
  }

  // ----- building runs

  lemma More(device: Device, events: seq<Event>, e: Event) returns (longer: seq<Event>)
    requires Fair(device, events)
    requires var s := Run(Initial(device), events);
             && Enabled(s, e) && Ready(s)
             && s.counted + s.uncounted < s.ioWritten + TWO32
             && (e.ReceiveEnd? ==> s.closed && s.wire == []) && (e.MainEnqueue? ==> !s.closed)
    ensures Fair(device, longer) && Run(Initial(device), longer) == Step(Run(Initial(device), events), e)
  {
    hide Step;
    longer := events + [e];
    assert longer[..|events|] == events;
  }

  /** The main thread may act, and the I/O thread is at the start of a turn. */
  ghost predicate Open(s: State) {
    && Ready(s) && s.pc == Waiting && s.keepGoing && !s.exitWhenDone && !s.closed && s.uncounted == 0
    && s.device.open
    && s.counted - s.ioWritten == |s.fromMain.data| + |s.wire|
    && s.fromMain.readIdx == 0 && |s.fromMain.data| <= 1
  }

  /** And everything asked for so far has been executed. */
  ghost predicate Settled(s: State) {
    Open(s) && s.wire == [] && s.commands == [] && s.fromMain == Buffer([], 0)
  }

  lemma DoCommand(device: Device, events: seq<Event>, kind: Kind) returns (longer: seq<Event>)
    requires Fair(device, events) && Settled(Run(Initial(device), events)) && !kind.Unknown? && !kind.Shutdown?
    ensures Fair(device, longer) && Settled(Run(Initial(device), longer))
    ensures var s, t := Run(Initial(device), events), Run(Initial(device), longer);
            t.calls == s.calls + [CommandCall(kind)] && t.trace == s.trace + [Do(kind)]
  {
    hide Fair, Run, Step;
    EnqueueStep(Run(Initial(device), events), kind);
    longer := More(device, events, MainEnqueue(kind));
    PopStep(Run(Initial(device), longer));
    longer := More(device, longer, Check);
    RunCommandStep(Run(Initial(device), longer));
    longer := More(device, longer, RunCommand);
  }

  /** One turn: writes the byte in the buffer, if any, and receives the next one. */
  function Turned(s: State, n: nat): State
    requires s.fromMain.readIdx == 0 && n <= |s.wire|
  {
    var d := s.fromMain.data;
    s.(bound := NO_LIMIT, device := s.device.Write(d), trace := s.trace + Items(d), ioWritten := s.ioWritten + |d|,
       fromMain := Buffer(s.wire[..n], 0), wire := s.wire[n..])
  }

  lemma Turn(device: Device, events: seq<Event>, n: nat) returns (longer: seq<Event>)
    requires Fair(device, events)
    requires var s := Run(Initial(device), events);
             Open(s) && s.commands == [] && n <= 1 && n <= |s.wire| && |s.fromMain.data| + |s.wire| <= MAX_SEND
    ensures Fair(device, longer)
    ensures Run(Initial(device), longer) == Turned(Run(Initial(device), events), n)
  {
    hide Fair, Run, Step, Device.Write;
    var s := Run(Initial(device), events);
    EmptyCheckStep(s);
    longer := More(device, events, Check);
    IdleReadStep(Run(Initial(device), longer));
    longer := More(device, longer, SlaveRead([]));
    if s.fromMain.data == [] {
      NothingWritten(s);
      IdleWriteStep(Run(Initial(device), longer));
      longer := More(device, longer, SlaveWrite(0, true));
    } else {
      var b := s.fromMain.data[0];
      assert Items([b]) == [Data(b)];
      WriteStep(Run(Initial(device), longer), b);
      longer := More(device, longer, SlaveWrite(1, true));
    }
    ReceiveStep(Run(Initial(device), longer), n);
    longer := More(device, longer, Receive(n));
    assert [] + s.wire[..n] == s.wire[..n];
    IdleSendStep(Run(Initial(device), longer));
    longer := More(device, longer, SendBack(0));
  }

  lemma NothingWritten(s: State)
    ensures s.device.Write([]) == s.device && s.trace + Items([]) == s.trace
  {
  }

  lemma TurnedOpen(s: State, n: nat)
    requires Open(s) && n <= 1 && n <= |s.wire| && s.commands == []
    ensures Open(Turned(s, n)) && s.fromMain.readIdx == 0
  {
    hide Items;
  }

  /** From s to t all bytes but the last passed through to the slave; that one is in the buffer. */
  ghost predicate Pumped(s: State, t: State)
    requires s.wire != []
  {
    var all := s.fromMain.data + s.wire;
    var last := |all| - 1;
    && Open(t) && t.commands == [] && t.wire == [] && t.fromMain == Buffer([all[last]], 0)
    && t.calls == s.calls && t.counted == s.counted && t.trace == s.trace + Items(all[..last])
    && t.device == s.device.Write(all[..last])
  }

  lemma {:induction false} Pump(device: Device, events: seq<Event>) returns (longer: seq<Event>)
    requires Fair(device, events)
    requires var s := Run(Initial(device), events);
             Open(s) && s.commands == [] && s.wire != [] && |s.fromMain.data| + |s.wire| <= MAX_SEND
    ensures Fair(device, longer) && Pumped(Run(Initial(device), events), Run(Initial(device), longer))
    decreases |Run(Initial(device), events).wire|
  {
    var s := Run(Initial(device), events);
    longer := Turn(device, events, 1);
    TurnedOpen(s, 1);
    hide Fair, Run, Open, Device.Write, Items, Pumped;
    if |s.wire| == 1 {
      PumpedLast(s);
    } else {
      longer := Pump(device, longer);
      PumpedMore(s, Run(Initial(device), longer));
    }
  }

  lemma PumpedLast(s: State)
    requires Open(s) && s.commands == [] && |s.wire| == 1 && Open(Turned(s, 1))
    ensures Pumped(s, Turned(s, 1))
  {
    hide Device.Write, Items, Open;
    var d := s.fromMain.data;
    assert (d + s.wire)[..|d|] == d && s.wire[..1] == [s.wire[0]];
  }

  lemma PumpedMore(s: State, t: State)
    requires s.fromMain.readIdx == 0 && |s.wire| > 1 && Pumped(Turned(s, 1), t)
    ensures Pumped(s, t)
  {
    hide Device.Write, Open;
    var d, rest, n := s.fromMain.data, s.wire, |s.wire| - 1;
    assert rest[..1] + rest[1..] == rest;
    assert (d + rest)[..|d| + n] == d + rest[..n] && (d + rest)[|d| + n] == rest[n];
    ItemsJoin(s.trace, d, rest[..n]);
    AsyncOutcome.WritesJoin(s.device, d, rest[..n]);
  }

  lemma ItemsJoin(done: seq<Item>, a: seq<Byte>, b: seq<Byte>)
    ensures done + Items(a) + Items(b) == done + Items(a + b)
  {
    assert Items(a + b) == Items(a) + Items(b);
  }

  lemma DoWrite(device: Device, events: seq<Event>, bytes: seq<Byte>) returns (longer: seq<Event>)
    requires Fair(device, events) && Settled(Run(Initial(device), events)) && 0 < |bytes| <= MAX_SEND
    ensures Fair(device, longer) && Settled(Run(Initial(device), longer))
    ensures var s, t := Run(Initial(device), events), Run(Initial(device), longer);
            && t.calls == s.calls + [WriteCall(bytes)] && t.trace == s.trace + Items(bytes)
            && t.device == s.device.Write(bytes)
  {
    hide Fair, Run, Step;
    var s := Run(Initial(device), events);
    longer := SendAndPump(device, events, bytes);
    var t := Run(Initial(device), longer);
    longer := Turn(device, longer, 0);
    TurnedOpen(t, 0);
    hide Open, Device.Write, Items;
    LastByteJoins(s, bytes);
  }

  lemma LastByteJoins(s: State, bytes: seq<Byte>)
    requires bytes != []
    ensures var last := |bytes| - 1;
            && s.trace + Items(bytes[..last]) + Items([bytes[last]]) == s.trace + Items(bytes)
            && s.device.Write(bytes[..last]).Write([bytes[last]]) == s.device.Write(bytes)
  {
    hide Device.Write;
    var last := |bytes| - 1;
    assert bytes == bytes[..last] + [bytes[last]];
    AsyncOutcome.WritesJoin(s.device, bytes[..last], [bytes[last]]);
    assert Items(bytes) == Items(bytes[..last]) + Items([bytes[last]]);
  }

  /** A write of which everything but the last byte has reached the slave. */
  lemma SendAndPump(device: Device, events: seq<Event>, bytes: seq<Byte>) returns (longer: seq<Event>)
    requires Fair(device, events) && Settled(Run(Initial(device), events)) && 0 < |bytes| <= MAX_SEND
    ensures Fair(device, longer)
    ensures var s, t := Run(Initial(device), events), Run(Initial(device), longer);
            var last := |bytes| - 1;
            && Open(t) && t.commands == [] && t.wire == [] && t.fromMain == Buffer([bytes[last]], 0)
            && t.calls == s.calls + [WriteCall(bytes)] && t.trace == s.trace + Items(bytes[..last])
            && t.device == s.device.Write(bytes[..last])
  {
    hide Fair, Run, Step, Device.Write, Items;
    var s := Run(Initial(device), events);
    SendStep(s, bytes);
    longer := More(device, events, MainSend(bytes));
    CountStep(Run(Initial(device), longer));
    longer := More(device, longer, MainCount);
    assert [] + bytes == bytes;
    longer := Pump(device, longer);
  }

  // ----- any calls, executed one after the other

  /** What a caller can ask for: writes that send something, and the three commands. */
  ghost predicate Legal(calls: seq<Call>) {
    forall c :: c in calls ==>
      match c
      case WriteCall(bytes) => 0 < |bytes| <= MAX_SEND
      case CommandCall(kind) => !kind.Unknown?
  }

  lemma {:induction false} DoCalls(device: Device, calls: seq<Call>) returns (events: seq<Event>)
    requires device.open && Legal(calls) && CommandCall(Shutdown) !in calls
    ensures Fair(device, events)
    ensures var s := Run(Initial(device), events);
            Settled(s) && s.calls == calls && s.trace == Flatten(calls)
    decreases |calls|
  {
    if calls == [] {
      events := [];
    } else {
      var before, c := calls[..|calls| - 1], calls[|calls| - 1];
      assert c in calls && forall d :: d in before ==> d in calls;
      events := DoCalls(device, before);
      hide Fair, Run, Settled, Items;
      assert calls == before + [c];
      match c
      case WriteCall(bytes) => events := DoWrite(device, events, bytes);
      case CommandCall(kind) => events := DoCommand(device, events, kind);
    }
  }

  // ----- and then a write and commands, of which the commands are lost

  function Commands(kinds: seq<Kind>): seq<Call> {
    seq(|kinds|, i requires 0 <= i < |kinds| => CommandCall(kinds[i]))
  }

  lemma {:induction false} EnqueueAll(device: Device, events: seq<Event>, kinds: seq<Kind>) returns (longer: seq<Event>)
    requires Fair(device, events) && (forall k :: k in kinds ==> !k.Unknown?)
    requires var s := Run(Initial(device), events); Open(s) && s.counted - s.ioWritten < TWO32
    ensures Fair(device, longer)
    ensures var s, t := Run(Initial(device), events), Run(Initial(device), longer);
            && t == s.(calls := s.calls + Commands(kinds), commands := t.commands)
            && |t.commands| == |s.commands| + |kinds|
            && (s.commands == [] && kinds != [] ==> t.commands[0].location == s.counted)
    decreases |kinds|
  {
    var s := Run(Initial(device), events);
    if kinds == [] {
      longer := events;
      assert s.calls + Commands(kinds) == s.calls;
    } else {
      var before, k := kinds[..|kinds| - 1], kinds[|kinds| - 1];
      assert k in kinds && forall d :: d in before ==> d in kinds;
      hide Fair, Run, Step;
      longer := EnqueueAll(device, events, before);
      EnqueueStep(Run(Initial(device), longer), k);
      longer := More(device, longer, MainEnqueue(k));
      assert Commands(kinds) == Commands(before) + [CommandCall(k)];
      assert s.calls + Commands(kinds) == s.calls + Commands(before) + [CommandCall(k)];
    }
  }

  /** The end of the stream is seen while the last byte is in the buffer. */
  lemma LeaveCommands(device: Device, events: seq<Event>) returns (longer: seq<Event>)
    requires Fair(device, events)
    requires var s := Run(Initial(device), events);
             && Open(s) && s.wire == [] && |s.fromMain.data| == 1
             && s.commands != [] && s.commands[0].location == s.counted
    ensures Fair(device, longer)
    ensures var s, t := Run(Initial(device), events), Run(Initial(device), longer);
            t.pc == Exited(true) && t.calls == s.calls && t.trace == s.trace + [Data(s.fromMain.data[0])]
  {
    hide Fair, Run, Step, Device.Write;
    var b := Run(Initial(device), events).fromMain.data[0];
    CloseStep(Run(Initial(device), events));
    longer := More(device, events, MainClose);
    MeasureStep(Run(Initial(device), longer));
    longer := More(device, longer, Check);
    IdleReadStep(Run(Initial(device), longer));
    longer := More(device, longer, SlaveRead([]));
    IdleWriteStep(Run(Initial(device), longer));
    longer := More(device, longer, SlaveWrite(0, true));
    ReceiveEndStep(Run(Initial(device), longer));
    longer := More(device, longer, ReceiveEnd);
    IdleSendStep(Run(Initial(device), longer));
    longer := More(device, longer, SendBack(0));
    longer := WriteAndLeave(device, longer, b);
  }

  lemma WriteAndLeave(device: Device, events: seq<Event>, b: Byte) returns (longer: seq<Event>)
    requires Fair(device, events)
    requires var s := Run(Initial(device), events);
             && Ready(s) && s.pc == Waiting && s.exitWhenDone && s.device.open && s.fromMain == Buffer([b], 0)
             && s.commands != [] && s.commands[0].location == s.counted == s.ioWritten + 1 && s.uncounted == 0
    ensures Fair(device, longer)
    ensures var s, t := Run(Initial(device), events), Run(Initial(device), longer);
            t.pc == Exited(true) && t.calls == s.calls && t.trace == s.trace + [Data(b)]
  {
    hide Fair, Run, Step, Device.Write;
    MeasureStep(Run(Initial(device), events));
    longer := More(device, events, Check);
    IdleReadStep(Run(Initial(device), longer));
    longer := More(device, longer, SlaveRead([]));
    WriteStep(Run(Initial(device), longer), b);
    longer := More(device, longer, SlaveWrite(1, true));
  }

  lemma TailIsLost(device: Device, calls: seq<Call>, bytes: seq<Byte>, kinds: seq<Kind>) returns (events: seq<Event>)
    requires device.open && Legal(calls) && CommandCall(Shutdown) !in calls && 0 < |bytes| <= MAX_SEND
    requires kinds != [] && forall k :: k in kinds ==> !k.Unknown?
    ensures Fair(device, events)
    ensures var s := Run(Initial(device), events);
            && s.pc == Exited(true) && s.calls == calls + [WriteCall(bytes)] + Commands(kinds)
            && s.trace == Flatten(calls) + Items(bytes)
  {
    hide Fair, Run, Items, Flatten, Device.Write;
    events := DoCalls(device, calls);
    events := SendAndPump(device, events, bytes);
    events := EnqueueAll(device, events, kinds);
    events := LeaveCommands(device, events);
    ItemsOfLast(Flatten(calls), bytes);
  }

  lemma ItemsOfLast(done: seq<Item>, bytes: seq<Byte>)
    requires bytes != []
    ensures done + Items(bytes[..|bytes| - 1]) + [Data(bytes[|bytes| - 1])] == done + Items(bytes)
  {
  }

  // ----- exactly which calls are always executed in full

  /** The calls end with a command, and there is a write. */
  ghost predicate Losable(calls: seq<Call>) {
    calls != [] && calls[|calls| - 1].CommandCall? && Writes(calls)
  }

  ghost predicate NoWriteAfterShutdown(calls: seq<Call>) {
    forall i, j :: 0 <= i < j < |calls| && calls[i] == CommandCall(Shutdown) ==> !calls[j].WriteCall?
  }

  lemma {:induction false} SplitAtLastWrite(calls: seq<Call>)
    returns (before: seq<Call>, bytes: seq<Byte>, kinds: seq<Kind>)
    requires Writes(calls)
    ensures calls == before + [WriteCall(bytes)] + Commands(kinds)
    decreases |calls|
  {
    var n := |calls| - 1;
    match calls[n]
    case WriteCall(b) =>
      before, bytes, kinds := calls[..n], b, [];
    case CommandCall(k) =>
      var i :| 0 <= i < |calls| && calls[i].WriteCall?;
      assert calls[..n][i].WriteCall?;
      before, bytes, kinds := SplitAtLastWrite(calls[..n]);
      assert Commands(kinds + [k]) == Commands(kinds) + [CommandCall(k)];
      kinds := kinds + [k];
  }

  lemma CommandsAtTheEndCanBeLost(device: Device, calls: seq<Call>) returns (events: seq<Event>)
    requires device.open && Legal(calls) && NoWriteAfterShutdown(calls) && Losable(calls)
    ensures Fair(device, events)
    ensures var s := Run(Initial(device), events);
            s.pc == Exited(true) && s.calls == calls && s.trace != Flatten(calls)
  {
    hide Fair, Run;
    var before, bytes, kinds := SplitAtLastWrite(calls);
    var m := |before|;
    assert calls[m] == WriteCall(bytes) && forall i :: 0 <= i < m ==> before[i] == calls[i];
    assert forall c :: c in before ==> c in calls;
    assert forall i :: 0 <= i < |kinds| ==> calls[m + 1 + i] == CommandCall(kinds[i]);
    assert calls[m] in calls;
    forall k | k in kinds
      ensures !k.Unknown?
    {
      assert CommandCall(k) in calls;
    }
    events := TailIsLost(device, before, bytes, kinds);
    FlattenGrows(before + [WriteCall(bytes)], kinds);
    FlattenOne(before, WriteCall(bytes));
  }

  lemma {:induction false} FlattenGrows(calls: seq<Call>, kinds: seq<Kind>)
    ensures |Flatten(calls + Commands(kinds))| == |Flatten(calls)| + |kinds|
    decreases |kinds|
  {
    if kinds == [] {
      assert calls + Commands(kinds) == calls;
    } else {
      var before, k := kinds[..|kinds| - 1], kinds[|kinds| - 1];
      FlattenGrows(calls, before);
      assert calls + Commands(kinds) == calls + Commands(before) + [CommandCall(k)];
      FlattenOne(calls + Commands(before), CommandCall(k));
    }
  }

  lemma NothingIsLostWithoutWrites(device: Device, events: seq<Event>)
    requires Fair(device, events)
    requires Run(Initial(device), events).pc == Exited(true) && !Writes(Run(Initial(device), events).calls)
    ensures var s := Run(Initial(device), events); s.trace == Issued(s)
  {
    hide Run, Unwrapped, HonestEnds, ClosedLast, Writes, Flatten;
    RunStaysQuiet(device, events);
    ExitWhenDoneLosesNoByte(device, events);
    var s := Run(Initial(device), events);
    assert s.trace + [] == s.trace;
  }

  lemma LastItem(calls: seq<Call>)
    requires Legal(calls)
    ensures calls == [] ==> Flatten(calls) == []
    ensures calls != [] && calls[|calls| - 1].WriteCall? ==>
              Flatten(calls) != [] && Flatten(calls)[|Flatten(calls)| - 1].Data?
  {
    if calls != [] && calls[|calls| - 1].WriteCall? {
      var c := calls[|calls| - 1];
      assert c in calls;
      LastOf(Flatten(calls[..|calls| - 1]), Items(c.bytes));
    }
  }

  /** In every fair run that asks for these calls and then closes, an exit-when-done exit has
      executed all of them, if and only if they end with a write, or write nothing. */
  lemma AllCallsAreExecutedIff(device: Device, calls: seq<Call>)
    requires device.open && Legal(calls) && NoWriteAfterShutdown(calls)
    ensures (forall events ::
               Fair(device, events) && Run(Initial(device), events).calls == calls
               && Run(Initial(device), events).pc == Exited(true)
               ==> Run(Initial(device), events).trace == Flatten(calls))
            <==> !Losable(calls)
  {
    hide Run, Unwrapped, HonestEnds, ClosedLast, Writes, Flatten;
    if Losable(calls) {
      var events := CommandsAtTheEndCanBeLost(device, calls);
    } else {
      forall events | Fair(device, events) && Run(Initial(device), events).calls == calls
                      && Run(Initial(device), events).pc == Exited(true)
        ensures Run(Initial(device), events).trace == Flatten(calls)
      {
        if Writes(calls) {
          LastItem(calls);
          LastByteIsExecuted(device, events);
        } else {
          NothingIsLostWithoutWrites(device, events);
        }
      }
    }
  }

  /** A thread that has seen the end of the stream, with nothing buffered and nothing queued, leaves
      in that turn, whether or not the slave can be written to. */
  lemma IdleThreadLeaves(s: State, present: bool)
    requires Ready(s) && s.pc == Waiting && s.exitWhenDone && s.commands == [] && s.fromMain == Buffer([], 0)
    ensures var t := Next(Next(Next(s, Check), SlaveRead([])), SlaveWrite(0, present));
            && t.trace == s.trace && t.device == s.device && t.sourced == s.sourced
            && (present ==> t.pc == Exited(true))
            && (!present ==> Next(Next(t, ReceiveEnd), SendBack(0)).pc == Exited(true))
  {
    var c := s.(bound := NO_LIMIT, pc := Reading, keepGoing := false);
    assert Next(s, Check) == c;
    IdleReadStep(c);
    hide Checked;
    assert s.trace + [] == s.trace;
  }

  // ----- a read moves the next write

  lemma EmptyIsFair(device: Device)
    ensures Fair(device, []) && Run(Initial(device), []) == Initial(device)
  {
  }

  lemma ReadFirst(device: Device, read: seq<Byte>) returns (events: seq<Event>)
    requires device.open && |read| <= BUFFER_SIZE
    ensures Fair(device, events)
    ensures var s := Run(Initial(device), events);
            Settled(s) && s.device == device.Read(|read|) && s.calls == [] && s.trace == []
  {
    hide Fair, Run, Step;
    EmptyIsFair(device);
    EmptyCheckStep(Initial(device));
    events := More(device, [], Check);
    ReadStep(Run(Initial(device), events), read);
    events := More(device, events, SlaveRead(read));
    IdleWriteStep(Run(Initial(device), events));
    events := More(device, events, SlaveWrite(0, true));
    ReceiveStep(Run(Initial(device), events), 0);
    events := More(device, events, Receive(0));
    IdleSendStep(Run(Initial(device), events));
    events := More(device, events, SendBack(0));
  }

  /** Bytes the thread reads ahead from a file move what is written next: the whole trace is
      executed, but that many bytes further on. */
  lemma ReadShiftsTheNextWrite(device: Device, read: seq<Byte>, bytes: seq<Byte>) returns (events: seq<Event>)
    requires device.open && 0 < |read| <= BUFFER_SIZE && 0 < |bytes| <= MAX_SEND
    ensures Fair(device, events)
    ensures var s := Run(Initial(device), events);
            && s.calls == [WriteCall(bytes)] && s.trace == Issued(s)
            && s.device == device.Read(|read|).Write(bytes) != device.CallAll(s.calls)
  {
    events := ReadFirst(device, read);
    hide Fair, Run, Device.Write;
    events := DoWrite(device, events, bytes);
    var calls := [WriteCall(bytes)];
    assert calls[..0] == [] && Flatten([]) == [] && device.CallAll([]) == device;
    assert Flatten(calls) == Items(bytes);
    AsyncOutcome.WriteMoves(device, bytes);
    AsyncOutcome.WriteMoves(device.Read(|read|), bytes);
  }

  /** A file "ab" at position 0 is read, then a byte is written: it lands after the two. */
  lemma WriteLandsBehindWhatWasRead() returns (events: seq<Event>)
    ensures var d := Device([97, 98], 0, true);
            var s := Run(Initial(d), events);
            && s.calls == [WriteCall([7])] && s.trace == Issued(s)
            && s.device == Device([97, 98, 7], 3, true) && d.CallAll(s.calls) == Device([7, 98], 1, true)
  {
    var d := Device([97, 98], 0, true);
    events := ReadShiftsTheNextWrite(d, [97, 98], [7]);
    hide Run;
    var calls := [WriteCall([7])];
    assert calls[..0] == [];
    assert d.CallAll([]) == d;
    assert d.CallAll(calls) == d.Write([7]);
  }
}
