/** Safety of the splice protocol, over every interleaving. */
module AsyncSafety {
  import opened Machine
  import opened AsyncSpec
  import opened AsyncTurns

  // ----- buffers

  lemma AppendUnread(b: Buffer, bytes: seq<Byte>)
    requires b.Valid() && |bytes| <= b.Free()
    ensures b.Append(bytes).Valid() && b.Append(bytes).Unread() == b.Unread() + bytes
  {
  }

  lemma SkipUnread(b: Buffer, n: nat)
    requires b.Valid() && n <= |b.data| - b.readIdx
    ensures var r := if n == 0 then b else b.Skip(n);
            r.Valid() && r.Unread() == b.Unread()[n..]
            && (r.readIdx == |r.data| <==> r.Unread() == [])
  {
  }

  // ----- re-interleaving what is still to come

  /** The remaining bytes, from stream position loc, spliced with the remaining commands. */
  function Merge(loc: nat, bytes: seq<Byte>, cmds: seq<Command>): seq<Item>
    decreases |bytes| + |cmds|
  {
    if cmds != [] && (cmds[0].location <= loc || bytes == []) then
      [Do(cmds[0].kind)] + Merge(loc, bytes, cmds[1..])
    else if bytes != [] then
      [Data(bytes[0])] + Merge(loc + 1, bytes[1..], cmds)
    else []
  }

  ghost predicate Sorted(lo: nat, cmds: seq<Command>, hi: nat) {
    && (forall i :: 0 <= i < |cmds| ==> lo <= cmds[i].location <= hi)
    && (forall i, j :: 0 <= i < j < |cmds| ==> cmds[i].location <= cmds[j].location)
  }

  lemma {:induction false} MergeAppendBytes(loc: nat, bytes: seq<Byte>, cmds: seq<Command>, more: seq<Byte>)
    requires Sorted(loc, cmds, loc + |bytes|)
    ensures Merge(loc, bytes + more, cmds) == Merge(loc, bytes, cmds) + Items(more)
    decreases |bytes| + |cmds| + |more|
  {
    if cmds != [] && cmds[0].location <= loc {
      MergeAppendBytes(loc, bytes, cmds[1..], more);
    } else if bytes != [] {
      assert (bytes + more)[1..] == bytes[1..] + more;
      MergeAppendBytes(loc + 1, bytes[1..], cmds, more);
    } else {
      assert bytes + more == more && cmds == [];
      MergeOfBytes(loc, more);
    }
  }

  lemma {:induction false} MergeOfBytes(loc: nat, bytes: seq<Byte>)
    ensures Merge(loc, bytes, []) == Items(bytes)
    decreases |bytes|
  {
    if bytes != [] {
      MergeOfBytes(loc + 1, bytes[1..]);
    }
  }

  lemma {:induction false} MergeAppendCommand(loc: nat, bytes: seq<Byte>, cmds: seq<Command>, c: Command)
    requires Sorted(loc, cmds, loc + |bytes|) && c.location == loc + |bytes|
    ensures Merge(loc, bytes, cmds + [c]) == Merge(loc, bytes, cmds) + [Do(c.kind)]
    decreases |bytes| + |cmds|
  {
    if cmds != [] && cmds[0].location <= loc {
      assert (cmds + [c])[1..] == cmds[1..] + [c];
      MergeAppendCommand(loc, bytes, cmds[1..], c);
    } else if bytes != [] {
      MergeAppendCommand(loc + 1, bytes[1..], cmds, c);
    } else {
      assert cmds == [];
      assert [c][1..] == [];
    }
  }

  /** Bytes that stop short of the next command come first. */
  lemma {:induction false} MergeTakeBytes(loc: nat, bytes: seq<Byte>, cmds: seq<Command>, n: nat)
    requires n <= |bytes| && (cmds != [] ==> loc + n <= cmds[0].location)
    ensures Merge(loc, bytes, cmds) == Items(bytes[..n]) + Merge(loc + n, bytes[n..], cmds)
    decreases n
  {
    if n > 0 {
      MergeFirst(loc, bytes, cmds);
      hide Merge, Items;
      MergeTakeBytes(loc + 1, bytes[1..], cmds, n - 1);
      FirstOfMany(bytes, n);
    } else {
      assert bytes[..0] == [] && bytes[0..] == bytes && Items([]) == [];
    }
  }

  lemma FirstOfMany(bytes: seq<Byte>, n: nat)
    requires 0 < n <= |bytes|
    ensures bytes[1..][n - 1..] == bytes[n..]
    ensures Items(bytes[..n]) == [Data(bytes[0])] + Items(bytes[1..][..n - 1])
  {
  }

  lemma MergeFirst(loc: nat, bytes: seq<Byte>, cmds: seq<Command>)
    requires bytes != [] && (cmds != [] ==> loc < cmds[0].location)
    ensures Merge(loc, bytes, cmds) == [Data(bytes[0])] + Merge(loc + 1, bytes[1..], cmds)
  {
  }

  /** A command whose place is reached comes first. */
  lemma MergePop(loc: nat, bytes: seq<Byte>, cmds: seq<Command>)
    requires cmds != [] && cmds[0].location <= loc
    ensures Merge(loc, bytes, cmds) == [Do(cmds[0].kind)] + Merge(loc, bytes, cmds[1..])
  {
  }

  function Kinds(cmds: seq<Command>): seq<Item> {
    if cmds == [] then [] else [Do(cmds[0].kind)] + Kinds(cmds[1..])
  }

  lemma {:induction false} MergeNoBytes(loc: nat, cmds: seq<Command>)
    ensures Merge(loc, [], cmds) == Kinds(cmds)
    decreases |cmds|
  {
    if cmds != [] {
      MergeNoBytes(loc, cmds[1..]);
    }
  }

  // ----- the invariant

  /** Everything the main thread asked for so far. */
  function Issued(s: State): seq<Item> { Flatten(s.calls) }

  /** Bytes the socket took that the slave has not been given yet. */
  function InFlight(s: State): seq<Byte>
    requires s.fromMain.Valid()
  {
    s.fromMain.Unread() + s.wire
  }

  ghost predicate Buffers(s: State) {
    && s.fromMain.Valid() && s.fromSlave.Valid()
    && s.sourced == s.delivered + s.fromSlave.Unread()
  }

  ghost predicate Counts(s: State)
    requires s.fromMain.Valid()
  {
    && s.counted + s.uncounted == s.ioWritten + |InFlight(s)|
    && Sorted(s.ioWritten, s.commands, s.counted)
  }

  /** What was done, then a command about to run, then what is still to come, is what was asked. */
  ghost predicate Spliced(s: State)
    requires s.fromMain.Valid()
  {
    Issued(s) == s.trace + (if s.pc == Running then [Do(s.curCmd.kind)] else [])
               + Merge(s.ioWritten, InFlight(s), s.commands)
  }

  /** The measured distance still protects every queued command, also one queued later. */
  ghost predicate Guarded(s: State) {
    && (s.pc == Reading || s.pc == Writing ==>
          s.commands != [] ==>
            s.bound <= s.commands[0].location - s.ioWritten
            || |s.fromMain.data| - s.fromMain.readIdx <= s.commands[0].location - s.ioWritten)
    && (s.pc == Running ==> s.curCmd.location == s.ioWritten && !s.curCmd.kind.Unknown?)
    && (forall c :: c in s.commands ==> !c.kind.Unknown?)
  }

  ghost predicate Inv(s: State) {
    Buffers(s) && Counts(s) && Spliced(s) && Guarded(s)
  }

  lemma InitialInv(device: Device)
    ensures Inv(Initial(device))
  {
  }

  // ----- every step keeps it, as long as the 32-bit distance is not mistaken for zero

  /** The check would read a positive distance as 0 and run a command again. */
  predicate Stale(s: State) {
    s.commands != [] && s.commands[0].location > s.ioWritten
    && (s.commands[0].location - s.ioWritten) % TWO32 == 0
  }

  lemma FlattenOne(calls: seq<Call>, c: Call)
    ensures Flatten(calls + [c]) == Flatten(calls) + CallItems(c)
  {
    assert (calls + [c])[..|calls|] == calls;
  }

  lemma Regroup(a: seq<Item>, b: seq<Item>, c: seq<Item>)
    ensures a + [] + (b + c) == a + b + c == a + b + [] + c
  {
  }

  lemma MainSendKeeps(s: State, e: Event)
    requires Inv(s) && e.MainSend? && Enabled(s, e)
    ensures Inv(Step(s, e))
  {
    hide Merge, Flatten, Items, Device.Write, Device.Perform;
    var t := Step(s, e);
    FlattenOne(s.calls, WriteCall(e.bytes));
    assert InFlight(t) == InFlight(s) + e.bytes;
    MergeAppendBytes(s.ioWritten, InFlight(s), s.commands, e.bytes);
  }

  lemma MainEnqueueKeeps(s: State, e: Event)
    requires Inv(s) && e.MainEnqueue? && Enabled(s, e)
    ensures Inv(Step(s, e))
  {
    hide Merge, Flatten, Items, Device.Write, Device.Perform;
    var t := Step(s, e);
    FlattenOne(s.calls, CommandCall(e.kind));
    MergeAppendCommand(s.ioWritten, InFlight(s), s.commands, Command(s.counted, e.kind));
  }

  lemma PopKeeps(s: State)
    requires Inv(s) && s.pc == Waiting && s.commands != [] && s.commands[0].location <= s.ioWritten
    ensures Inv(Checked(s))
  {
    hide Merge, Flatten, Items, Device.Write, Device.Perform;
    var t := Checked(s);
    MergePop(s.ioWritten, InFlight(s), s.commands);
    Regroup(s.trace, [Do(t.curCmd.kind)], Merge(t.ioWritten, InFlight(t), t.commands));
  }

  lemma MeasureKeeps(s: State)
    requires Inv(s) && s.pc == Waiting && !Stale(s) && (s.commands != [] ==> s.commands[0].location > s.ioWritten)
    ensures Inv(Checked(s))
  {
    hide Merge, Flatten, Buffer.Unread, Device.Write, Device.Perform;
  }

  lemma CheckKeeps(s: State)
    requires Inv(s) && s.pc == Waiting && !Stale(s)
    ensures Inv(Step(s, Check))
  {
    hide Inv, Checked;
    InvIsValid(s);
    if s.commands != [] && s.commands[0].location <= s.ioWritten {
      PopKeeps(s);
    } else {
      MeasureKeeps(s);
    }
  }

  lemma InvIsValid(s: State)
    requires Inv(s)
    ensures s.fromMain.Valid() && s.fromSlave.Valid()
  {
  }

  lemma SlaveWriteKeeps(s: State, e: Event)
    requires Inv(s) && e.SlaveWrite? && Enabled(s, e)
    ensures Inv(Step(s, e))
  {
    hide Merge, Flatten, Items, Device.Write, Device.Perform, Buffer.Skip;
    var t := Step(s, e);
    SkipUnread(s.fromMain, e.n);
    var chunk := s.fromMain.Unread()[..e.n];
    assert InFlight(s)[..e.n] == chunk && InFlight(s)[e.n..] == InFlight(t);
    MergeTakeBytes(s.ioWritten, InFlight(s), s.commands, e.n);
    Regroup(s.trace, Items(chunk), Merge(t.ioWritten, InFlight(t), t.commands));
  }

  lemma ReceiveKeeps(s: State, e: Event)
    requires Inv(s) && e.Receive? && Enabled(s, e)
    ensures Inv(Step(s, e))
  {
    hide Merge, Flatten, Items, Device.Write, Device.Perform;
    assert InFlight(Step(s, e)) == InFlight(s);
  }

  lemma RunCommandKeeps(s: State)
    requires Inv(s) && s.pc == Running
    ensures Inv(Step(s, RunCommand))
  {
    hide Merge, Flatten, Items, Device.Write, Device.Perform;
    Regroup(s.trace, [Do(s.curCmd.kind)], Merge(s.ioWritten, InFlight(s), s.commands));
  }

  lemma SendBackKeepsBuffers(s: State, e: Event)
    requires Buffers(s) && e.SendBack? && Enabled(s, e)
    ensures Buffers(Step(s, e))
  {
    hide Buffer.Skip;
    SkipUnread(s.fromSlave, e.n);
    var u := s.fromSlave.Unread();
    assert u == u[..e.n] + u[e.n..];
    assert s.delivered + u == s.delivered + u[..e.n] + u[e.n..];
  }

  lemma FillBackKeepsBuffers(s: State, e: Event)
    requires Buffers(s) && (e.Pulse? || e.SlaveRead?) && Enabled(s, e)
    ensures Buffers(Step(s, e))
  {
    hide Buffer.Append, Buffer.Unread, Taken;
    AppendUnread(s.fromSlave, if e.SlaveRead? then e.bytes else e.bytes[..Taken(s, |e.bytes|, e.allowPartial)]);
  }

  /** The reverse direction needs no assumption at all. */
  lemma BuffersKeep(s: State, e: Event)
    requires Buffers(s) && Enabled(s, e)
    ensures Buffers(Step(s, e))
  {
    hide Device.Write, Device.Perform, Buffer.Append, Buffer.Skip, Items, Taken;
    match e
    case Pulse(_, _) => FillBackKeepsBuffers(s, e);
    case SlaveRead(_) => FillBackKeepsBuffers(s, e);
    case SendBack(_) => SendBackKeepsBuffers(s, e);
    case SlaveWrite(n, _) => SkipUnread(s.fromMain, n);
    case Receive(n) => AppendUnread(s.fromMain, s.wire[..n]);
    case _ =>
  }

  lemma ReverseKeeps(s: State, e: Event)
    requires Inv(s) && (e.Pulse? || e.SlaveRead? || e.SendBack?) && Enabled(s, e)
    ensures Inv(Step(s, e))
  {
    hide Merge, Flatten, Buffers;
    BuffersKeep(s, e);
  }

  lemma StepKeeps(s: State, e: Event)
    requires Inv(s) && Enabled(s, e) && !(e.Check? && Stale(s))
    ensures Inv(Step(s, e))
  {
    match e
    case MainSend(_) => MainSendKeeps(s, e);
    case MainEnqueue(_) => MainEnqueueKeeps(s, e);
    case Check => CheckKeeps(s);
    case SlaveWrite(_, _) => SlaveWriteKeeps(s, e);
    case Receive(_) => ReceiveKeeps(s, e);
    case RunCommand => RunCommandKeeps(s);
    case Pulse(_, _) => ReverseKeeps(s, e);
    case SlaveRead(_) => ReverseKeeps(s, e);
    case SendBack(_) => ReverseKeeps(s, e);
    case MainCount =>
    case MainClose =>
    case ReceiveEnd =>
    case Fail =>
  }

  // ----- whole runs

  /** Fewer than 2^32 bytes are ever under way between Write and the slave. */
  ghost predicate Unwrapped(s: State, events: seq<Event>) {
    events == [] ||
    var before := events[..|events| - 1];
    Unwrapped(s, before) && Run(s, before).counted + Run(s, before).uncounted < Run(s, before).ioWritten + TWO32
  }

  lemma UnwrappedIsNotStale(s: State)
    requires Inv(s) && s.counted + s.uncounted < s.ioWritten + TWO32
    ensures !Stale(s)
  {
  }

  lemma {:induction false} RunKeeps(s: State, events: seq<Event>)
    requires Inv(s) && Unwrapped(s, events)
    ensures Inv(Run(s, events))
  {
    hide Inv, Next;
    if events != [] {
      var before := events[..|events| - 1];
      RunKeeps(s, before);
      NextKeeps(Run(s, before), events[|events| - 1]);
    }
  }

  lemma NextKeeps(s: State, e: Event)
    requires Inv(s) && s.counted + s.uncounted < s.ioWritten + TWO32
    ensures Inv(Next(s, e))
  {
    hide Inv, Step;
    UnwrappedIsNotStale(s);
    if Enabled(s, e) && s.fromMain.Valid() && s.fromSlave.Valid() {
      StepKeeps(s, e);
    }
  }

  /** In every interleaving, the slave sees a prefix of what the main thread asked for, and a
      command runs exactly at the byte position at which it was issued. */
  lemma TraceIsPrefix(device: Device, events: seq<Event>)
    requires Unwrapped(Initial(device), events)
    ensures var s := Run(Initial(device), events);
            && s.trace <= Issued(s)
            && (s.pc == Running ==> s.curCmd.location == s.ioWritten && s.trace + [Do(s.curCmd.kind)] <= Issued(s))
  {
    InitialInv(device);
    RunKeeps(Initial(device), events);
  }

  /** No byte is lost or duplicated on the way. */
  lemma BytesAreConserved(device: Device, events: seq<Event>)
    requires Unwrapped(Initial(device), events)
    ensures var s := Run(Initial(device), events);
            && s.fromMain.Valid()
            && Issued(s) == s.trace + (if s.pc == Running then [Do(s.curCmd.kind)] else [])
                          + Merge(s.ioWritten, s.fromMain.Unread() + s.wire, s.commands)
  {
    InitialInv(device);
    RunKeeps(Initial(device), events);
  }

  /** Reverse direction: what the main thread received, then what is buffered, is what came from
      the slave and from WriteToMainThread, in order; the indices stay in the buffers. */
  lemma {:induction false} ReverseStreamIsExact(device: Device, events: seq<Event>)
    ensures var s := Run(Initial(device), events);
            && 0 <= s.fromSlave.readIdx <= |s.fromSlave.data| <= BUFFER_SIZE
            && 0 <= s.fromMain.readIdx <= |s.fromMain.data| <= BUFFER_SIZE
            && s.sourced == s.delivered + s.fromSlave.data[s.fromSlave.readIdx..]
  {
    RunKeepsBuffers(device, events);
  }

  lemma {:induction false} RunKeepsBuffers(device: Device, events: seq<Event>)
    ensures Buffers(Run(Initial(device), events))
  {
    if events != [] {
      var s := Run(Initial(device), events[..|events| - 1]);
      RunKeepsBuffers(device, events[..|events| - 1]);
      hide Buffers, Step;
      if Enabled(s, events[|events| - 1]) {
        BuffersAreValid(s);
        BuffersKeep(s, events[|events| - 1]);
      }
    }
  }

  lemma BuffersAreValid(s: State)
    requires Buffers(s)
    ensures s.fromMain.Valid() && s.fromSlave.Valid()
  {
  }

  // ----- what WriteToMainThread splices in

  /** A batch that fits is taken whole, and nothing else; one that does not is refused, or, when a
      part will do, fills the buffer with its beginning. */
  ghost predicate TakesWhatFits(s: State, t: State, bytes: seq<Byte>, allowPartial: bool)
    requires s.fromSlave.Valid() && t.fromSlave.Valid()
  {
    var room := 4096 - |s.fromSlave.data|;
    && (|bytes| <= room ==>
          t.sourced == s.sourced + bytes && t.fromSlave.Unread() == s.fromSlave.Unread() + bytes)
    && (|bytes| > room && !allowPartial ==> t == s)
    && (|bytes| > room && allowPartial ==>
          && |t.fromSlave.data| == 4096
          && t.sourced == s.sourced + bytes[..room]
          && t.fromSlave.Unread() == s.fromSlave.Unread() + bytes[..room])
  }

  lemma PulseTakesWhatFits(s: State, bytes: seq<Byte>, allowPartial: bool)
    requires s.pc == Waiting && s.fromMain.Valid() && s.fromSlave.Valid()
    ensures var t := Next(s, Pulse(bytes, allowPartial));
            t.fromSlave.Valid() && TakesWhatFits(s, t, bytes, allowPartial)
  {
    var k := Taken(s, |bytes|, allowPartial);
    AppendUnread(s.fromSlave, bytes[..k]);
    assert bytes[..|bytes|] == bytes;
    assert s.sourced + [] == s.sourced && s.fromSlave.data + [] == s.fromSlave.data;
  }

  lemma PulseOfARun(device: Device, events: seq<Event>, bytes: seq<Byte>, allowPartial: bool)
    requires Run(Initial(device), events).pc == Waiting
    ensures var s := Run(Initial(device), events);
            var t := Next(s, Pulse(bytes, allowPartial));
            s.fromSlave.Valid() && t.fromSlave.Valid() && TakesWhatFits(s, t, bytes, allowPartial)
  {
    hide Run, Next, TakesWhatFits;
    RunKeepsBuffers(device, events);
    PulseTakesWhatFits(Run(Initial(device), events), bytes, allowPartial);
  }

  /** Everything that the slave delivered and WriteToMainThread was given in a run, in order. */
  ghost function Supplied(device: Device, events: seq<Event>): seq<Byte> {
    if events == [] then []
    else
      var before, e := events[..|events| - 1], events[|events| - 1];
      Supplied(device, before)
      + if (e.SlaveRead? || e.Pulse?) && Enabled(Run(Initial(device), before), e) then e.bytes else []
  }

  /** Every batch given to WriteToMainThread fits. */
  ghost predicate Fitting(device: Device, events: seq<Event>) {
    events == [] ||
    var before, e := events[..|events| - 1], events[|events| - 1];
    Fitting(device, before) && (e.Pulse? ==> |e.bytes| + |Run(Initial(device), before).fromSlave.data| <= 4096)
  }

  /** While every batch fits, what reached the main thread and what is buffered for it are exactly
      what was supplied. */
  lemma {:induction false} SuppliedBytesArrive(device: Device, events: seq<Event>)
    requires Fitting(device, events)
    ensures var s := Run(Initial(device), events);
            s.fromSlave.Valid() && s.delivered + s.fromSlave.Unread() == Supplied(device, events)
  {
    SourcedIsSupplied(device, events);
    RunKeepsBuffers(device, events);
  }

  lemma {:induction false} SourcedIsSupplied(device: Device, events: seq<Event>)
    requires Fitting(device, events)
    ensures Run(Initial(device), events).sourced == Supplied(device, events)
  {
    if events != [] {
      var before, e := events[..|events| - 1], events[|events| - 1];
      var s := Run(Initial(device), before);
      SourcedIsSupplied(device, before);
      RunKeepsBuffers(device, before);
      BuffersAreValid(s);
      hide Buffers, Step;
      if Enabled(s, e) {
        StepSources(s, e);
      }
    }
  }

  lemma StepSources(s: State, e: Event)
    requires Enabled(s, e) && s.fromMain.Valid() && s.fromSlave.Valid()
    requires e.Pulse? ==> |e.bytes| + |s.fromSlave.data| <= 4096
    ensures Step(s, e).sourced == s.sourced + if e.SlaveRead? || e.Pulse? then e.bytes else []
  {
    hide Device.Write, Device.Perform, Items;
    assert s.sourced + [] == s.sourced;
    if e.Pulse? {
      assert e.bytes[..|e.bytes|] == e.bytes;
    }
  }

  // ----- why the receive comes after the write

  /** One more good step at the end of a run. */
  lemma Extend(s0: State, events: seq<Event>, e: Event) returns (longer: seq<Event>)
    requires Inv(Run(s0, events)) && Enabled(Run(s0, events), e) && !(e.Check? && Stale(Run(s0, events)))
    ensures Run(s0, longer) == Step(Run(s0, events), e) && Inv(Run(s0, longer))
  {
    hide Step, Merge, Flatten;
    longer := events + [e];
    assert longer[..|events|] == events;
    StepKeeps(Run(s0, events), e);
  }

  /** The same bytes received, but on the way to the slave in the same turn. */
  function ReceivedFirst(s: State, n: nat): State
    requires n <= |s.wire|
  {
    s.(fromMain := s.fromMain.Append(s.wire[..n]), wire := s.wire[n..])
  }

  lemma OvertakenFlush(device: Device) returns (events: seq<Event>)
    ensures var s := Run(Initial(device), events);
            && Inv(s) && s.pc == Writing && s.bound == NO_LIMIT && s.trace == [] && s.fromMain == Buffer([], 0)
            && s.wire == [7] && s.calls == [CommandCall(Flush), WriteCall([7])]
  {
    InitialInv(device);
    var s := Initial(device);
    assert Run(s, []) == s;
    hide Inv, Step, Run;
    EmptyCheckStep(s);
    events := Extend(s, [], Check);
    IdleReadStep(Run(s, events));
    events := Extend(s, events, SlaveRead([]));
    EnqueueStep(Run(s, events), Flush);
    events := Extend(s, events, MainEnqueue(Flush));
    SendStep(Run(s, events), [7]);
    events := Extend(s, events, MainSend([7]));
  }

  /** If a turn received before it wrote, a byte sent after the locked check could overtake a
      flush issued before that byte. */
  lemma ReceivingFirstWouldBeUnsafe(device: Device)
    ensures exists events ::
              var s := Run(Initial(device), events);
              && s.pc == Writing && s.wire == [7] && s.bound >= 1 && s.fromMain == Buffer([], 0)
              && !(Written(ReceivedFirst(s, 1), 1).trace <= Issued(s))
  {
    hide Inv, Run;
    var events := OvertakenFlush(device);
    var s := Run(Initial(device), events);
    var calls := s.calls;
    assert calls[..1] == [CommandCall(Flush)] && calls[..1][..0] == [];
    assert Flatten(calls[..1]) == [Do(Flush)];
    assert Issued(s)[0] == Do(Flush);
    var t := ReceivedFirst(s, 1);
    assert t.fromMain.Unread()[..1] == [7];
    assert Written(t, 1).trace[0] == Data(7);
  }
}
