/** What a run leaves at the slave device, and exactly when that is what its trace says. */
module AsyncOutcome {
  import opened Machine
  import opened AsyncSpec
  import opened AsyncSafety

  // ----- regrouping writes does not change a device

  /** write(a); write(b) is write(a + b). */
  lemma WritesJoin(d: Device, a: seq<Byte>, b: seq<Byte>)
    ensures d.Write(a).Write(b) == d.Write(a + b)
  {
    if a == [] {
      assert a + b == b;
    } else if b == [] {
      assert a + b == a;
    }
  }

  lemma {:induction false} ApplyAllAppend(d: Device, a: seq<Item>, b: seq<Item>)
    ensures d.ApplyAll(a + b) == d.ApplyAll(a).ApplyAll(b)
    decreases |b|
  {
    hide Device.Apply;
    if b == [] {
      assert a + b == a;
    } else {
      ApplyAllAppend(d, a, b[..|b| - 1]);
      assert (a + b)[..|a + b| - 1] == a + b[..|b| - 1];
    }
  }

  /** One write of many bytes is the same bytes written one at a time. */
  lemma {:induction false} WriteIsBytewise(d: Device, bytes: seq<Byte>)
    ensures d.Write(bytes) == d.ApplyAll(Items(bytes))
    decreases |bytes|
  {
    if bytes != [] {
      var n := |bytes| - 1;
      WriteIsBytewise(d, bytes[..n]);
      assert Items(bytes)[..n] == Items(bytes[..n]);
      assert bytes == bytes[..n] + [bytes[n]];
      WritesJoin(d, bytes[..n], [bytes[n]]);
    }
  }

  lemma OneItem(d: Device, item: Item)
    ensures d.ApplyAll([item]) == d.Apply(item)
  {
    assert [item][..0] == [];
    assert d.ApplyAll([]) == d;
  }

  /** Synchronous calls leave the device the flattened trace leaves. */
  lemma {:induction false} CallsAreTheirTrace(d: Device, calls: seq<Call>)
    ensures d.CallAll(calls) == d.ApplyAll(Flatten(calls))
    decreases |calls|
  {
    hide Device.Write, Device.Perform;
    if calls != [] {
      var before, last := calls[..|calls| - 1], calls[|calls| - 1];
      CallsAreTheirTrace(d, before);
      ApplyAllAppend(d, Flatten(before), CallItems(last));
      match last
      case WriteCall(bytes) => WriteIsBytewise(d.CallAll(before), bytes);
      case CommandCall(kind) => OneItem(d.CallAll(before), Do(kind));
    }
  }

  // ----- what the device's operations mean

  /** A write puts the bytes at the position, keeps what is around them, fills a gap with zeros,
      and leaves the position behind them. */
  lemma WritePutsTheBytes(d: Device, bytes: seq<Byte>)
    requires d.open && bytes != []
    ensures var w := d.Write(bytes);
            && w.open && w.pos == d.pos + |bytes|
            && |w.contents| == (if w.pos > |d.contents| then w.pos else |d.contents|)
            && forall k :: 0 <= k < |w.contents| ==>
                 w.contents[k] == if d.pos <= k < w.pos then bytes[k - d.pos]
                                  else if k < |d.contents| then d.contents[k] else 0
  {
  }

  /** A seek moves the position of an open file to the offset counted from the start, from where it
      is, or from the end, unless that lies before the start or the origin is unknown; it changes
      nothing else. A flush changes nothing, and a shutdown closes. */
  lemma CommandsMean(d: Device, offset: int)
    ensures d.open && offset >= 0 ==> d.Perform(Seek(offset, FromStart)) == Device(d.contents, offset, true)
    ensures d.open && d.pos + offset >= 0 ==>
              d.Perform(Seek(offset, FromCurrent)) == Device(d.contents, d.pos + offset, true)
    ensures d.open && |d.contents| + offset >= 0 ==>
              d.Perform(Seek(offset, FromEnd)) == Device(d.contents, |d.contents| + offset, true)
    ensures offset < 0 ==> d.Perform(Seek(offset, FromStart)) == d
    ensures d.pos + offset < 0 ==> d.Perform(Seek(offset, FromCurrent)) == d
    ensures |d.contents| + offset < 0 ==> d.Perform(Seek(offset, FromEnd)) == d
    ensures !d.open ==> forall whence :: d.Perform(Seek(offset, whence)) == d
    ensures d.Perform(Seek(offset, OtherWhence)) == d && d.Perform(Flush) == d
    ensures d.Perform(Shutdown) == Device(d.contents, d.pos, false)
  {
  }

  /** Seeking back to where a write began and writing as many bytes again leaves what the second
      write alone leaves. */
  lemma SeekBackAndOverwrite(d: Device, a: seq<Byte>, b: seq<Byte>)
    requires d.open && |a| == |b|
    ensures d.Write(a).Perform(Seek(-|a|, FromCurrent)).Write(b) == d.Write(b)
  {
    if a != [] {
      WritePutsTheBytes(d, a);
      WritePutsTheBytes(d, b);
      var e := Device(d.Write(a).contents, d.pos, true);
      WritePutsTheBytes(e, b);
      CommandsMean(d.Write(a), -|a|);
      hide Device.Write, Device.Perform;
      assert e.Write(b).contents == d.Write(b).contents;
    }
  }

  // ----- the device and its trace

  /** The device is what its trace makes of it. */
  ghost predicate Follows(device: Device, s: State) {
    s.device == device.ApplyAll(s.trace)
  }

  /** How many bytes the thread has read from the slave. */
  ghost function SlaveBytes(device: Device, events: seq<Event>): nat {
    if events == [] then 0
    else
      var before, e := events[..|events| - 1], events[|events| - 1];
      SlaveBytes(device, before)
      + if e.SlaveRead? && Enabled(Run(Initial(device), before), e) then |e.bytes| else 0
  }

  /** A device that follows its trace goes on doing so, except when a byte is read from it: it has
      one position. */
  lemma StepFollowsIff(device: Device, s: State, e: Event)
    requires Follows(device, s) && Buffers(s) && Enabled(s, e)
    ensures Follows(device, Step(s, e)) <==> !(e.SlaveRead? && e.bytes != [])
  {
    hide Device.Write, Device.Perform, Device.ApplyAll, Items;
    match e
    case SlaveWrite(n, _) =>
      var chunk := s.fromMain.Unread()[..n];
      WriteIsBytewise(s.device, chunk);
      ApplyAllAppend(device, s.trace, Items(chunk));
    case RunCommand =>
      DoItem(s.device, s.curCmd.kind);
      ApplyAllAppend(device, s.trace, [Do(s.curCmd.kind)]);
    case _ =>
  }

  ghost predicate AlwaysFollows(device: Device, events: seq<Event>) {
    && Follows(device, Run(Initial(device), events))
    && (events != [] ==> AlwaysFollows(device, events[..|events| - 1]))
  }

  /** Throughout a run the device is what its trace makes of it, exactly if the thread never read
      a byte from it. */
  lemma {:induction false} DeviceFollowsTraceIff(device: Device, events: seq<Event>)
    ensures AlwaysFollows(device, events) <==> SlaveBytes(device, events) == 0
    decreases |events|
  {
    if events != [] {
      var before, e := events[..|events| - 1], events[|events| - 1];
      var s := Run(Initial(device), before);
      DeviceFollowsTraceIff(device, before);
      RunKeepsBuffers(device, before);
      BuffersAreValid(s);
      assert AlwaysFollows(device, before) ==> Follows(device, s);
      hide Follows, Buffers, Step;
      if Enabled(s, e) && Follows(device, s) {
        StepFollowsIff(device, s, e);
      }
    } else {
      assert device.ApplyAll([]) == device;
    }
  }

  lemma DoItem(d: Device, kind: Kind)
    ensures d.ApplyAll([Do(kind)]) == d.Perform(kind)
    ensures kind.Unknown? ==> d.Perform(kind) == d
  {
    OneItem(d, Do(kind));
  }

  /** When the whole trace was executed and nothing was read from the slave, contents and position
      are those of the same calls made synchronously, however the thread cut and joined the
      writes. */
  lemma CompleteRunEqualsSynchronousCalls(device: Device, events: seq<Event>)
    requires Run(Initial(device), events).trace == Issued(Run(Initial(device), events))
    requires SlaveBytes(device, events) == 0
    ensures Run(Initial(device), events).device == device.CallAll(Run(Initial(device), events).calls)
  {
    DeviceFollowsTraceIff(device, events);
    CallsAreTheirTrace(device, Run(Initial(device), events).calls);
  }

  // ----- how far reads move the writes

  /** Bytes and flushes only: nothing that sets the position anew. */
  ghost predicate Streaming(items: seq<Item>) {
    forall i :: i in items ==> i.Data? || i == Do(Flush)
  }

  function DataCount(items: seq<Item>): nat {
    if items == [] then 0
    else DataCount(items[..|items| - 1]) + if items[|items| - 1].Data? then 1 else 0
  }

  lemma {:induction false} DataCountAppend(a: seq<Item>, b: seq<Item>)
    ensures DataCount(a + b) == DataCount(a) + DataCount(b)
    decreases |b|
  {
    if b == [] {
      assert a + b == a;
    } else {
      DataCountAppend(a, b[..|b| - 1]);
      assert (a + b)[..|a + b| - 1] == a + b[..|b| - 1];
    }
  }

  lemma {:induction false} StreamingMoves(d: Device, items: seq<Item>)
    requires Streaming(items) && d.open
    ensures d.ApplyAll(items).open && d.ApplyAll(items).pos == d.pos + DataCount(items)
    decreases |items|
  {
    if items != [] {
      assert items[|items| - 1] in items;
      StreamingMoves(d, items[..|items| - 1]);
    }
  }

  lemma WriteMoves(d: Device, bytes: seq<Byte>)
    requires d.open
    ensures d.Write(bytes).open && d.Write(bytes).pos == d.pos + |bytes|
  {
  }

  lemma {:induction false} ItemsAreData(bytes: seq<Byte>)
    ensures DataCount(Items(bytes)) == |bytes|
    decreases |bytes|
  {
    if bytes != [] {
      ItemsAreData(bytes[..|bytes| - 1]);
      assert Items(bytes)[..|bytes| - 1] == Items(bytes[..|bytes| - 1]);
    }
  }

  lemma StepMoves(s: State, e: Event)
    requires Buffers(s) && Enabled(s, e) && Streaming(Step(s, e).trace) && s.device.open
    ensures var t := Step(s, e);
            && Streaming(s.trace) && t.device.open
            && t.device.pos + DataCount(s.trace)
               == s.device.pos + DataCount(t.trace) + if e.SlaveRead? then |e.bytes| else 0
  {
    hide Device.Write, DataCount, Items;
    match e
    case SlaveWrite(n, _) =>
      var chunk := s.fromMain.Unread()[..n];
      WriteMoves(s.device, chunk);
      ItemsAreData(chunk);
      DataCountAppend(s.trace, Items(chunk));
      assert forall i :: i in s.trace ==> i in s.trace + Items(chunk);
    case RunCommand =>
      DataCountAppend(s.trace, [Do(s.curCmd.kind)]);
      OneCommand(s.curCmd.kind);
      assert forall i :: i in s.trace ==> i in s.trace + [Do(s.curCmd.kind)];
      assert Do(s.curCmd.kind) in s.trace + [Do(s.curCmd.kind)];
    case _ =>
  }

  lemma OneCommand(kind: Kind)
    ensures DataCount([Do(kind)]) == 0
  {
    assert [Do(kind)][..0] == [];
  }

  /** While only bytes and flushes were executed, the position is ahead by the bytes read from the
      slave. */
  lemma {:induction false} ReadsMoveThePosition(device: Device, events: seq<Event>)
    requires device.open && Streaming(Run(Initial(device), events).trace)
    ensures var s := Run(Initial(device), events);
            s.device.open && s.device.pos == device.pos + DataCount(s.trace) + SlaveBytes(device, events)
    decreases |events|
  {
    if events != [] {
      var before, e := events[..|events| - 1], events[|events| - 1];
      var s := Run(Initial(device), before);
      RunKeepsBuffers(device, before);
      BuffersAreValid(s);
      hide Step, Streaming, DataCount, Buffers;
      if Enabled(s, e) {
        TraceOnlyGrows(s, e);
        ReadsMoveThePosition(device, before);
        StepMoves(s, e);
      } else {
        ReadsMoveThePosition(device, before);
      }
    }
  }

  lemma TraceOnlyGrows(s: State, e: Event)
    requires Buffers(s) && Enabled(s, e) && Streaming(Step(s, e).trace)
    ensures Streaming(s.trace)
  {
    hide Device.Write, Device.Perform, Items;
    assert s.trace <= Step(s, e).trace;
    assert forall i :: i in s.trace ==> i in Step(s, e).trace;
  }

  /** Of a complete run with writes and flushes only, the device ends as it would synchronously
      exactly if nothing was read from it. */
  lemma StreamedRunIsSynchronousIff(device: Device, events: seq<Event>)
    requires device.open
    requires var s := Run(Initial(device), events); s.trace == Issued(s) && Streaming(s.trace)
    ensures var s := Run(Initial(device), events);
            s.device == device.CallAll(s.calls) <==> SlaveBytes(device, events) == 0
  {
    hide SlaveBytes, DataCount, Streaming, Run;
    var s := Run(Initial(device), events);
    ReadsMoveThePosition(device, events);
    StreamingMoves(device, s.trace);
    CallsAreTheirTrace(device, s.calls);
    if SlaveBytes(device, events) == 0 {
      CompleteRunEqualsSynchronousCalls(device, events);
    }
  }
}
