/** The distance to the next command is kept in 32 bits: exactly when that goes wrong, and what
    keeps it from going wrong. */
module AsyncDistance {
  import opened Machine
  import opened AsyncSpec
  import opened AsyncSafety
  import opened AsyncTurns

  // ----- one look at the queue

  /** From a good state, a look at the queue and the command it triggers keep the trace a prefix
      unless the distance is a positive multiple of 2^32 and some command ran before. */
  lemma CheckAndRunIsSafeIff(s: State)
    requires Inv(s) && s.pc == Waiting
    ensures var t := Next(Next(s, Check), RunCommand);
            t.trace <= Issued(t) <==> !(Stale(s) && !s.curCmd.kind.Unknown?)
  {
    InvIsValid(s);
    if Stale(s) {
      StaleCommandComesTooEarly(s);
    } else {
      var c := Checked(s);
      NextLooks(s);
      hide Next, Inv, Checked, Issued, Stale;
      CheckKeeps(s);
      InvIsValid(c);
      InvIsPrefix(c);
      if c.pc == Running {
        RunCommandKeeps(c);
        InvIsPrefix(Ran(c));
      }
    }
  }

  lemma NextLooks(s: State)
    requires s.fromMain.Valid() && s.fromSlave.Valid() && s.pc == Waiting
    ensures Next(s, Check) == Checked(s)
    ensures Next(Checked(s), RunCommand) == if Checked(s).pc == Running then Ran(Checked(s)) else Checked(s)
  {
    hide Ran;
  }

  lemma InvIsPrefix(s: State)
    requires Inv(s)
    ensures s.trace <= Issued(s)
  {
    hide Merge, Flatten;
  }

  lemma StaleCommandComesTooEarly(s: State)
    requires Inv(s) && s.pc == Waiting && Stale(s)
    ensures var t := Next(Next(s, Check), RunCommand);
            t.trace <= Issued(t) <==> s.curCmd.kind.Unknown?
  {
    hide Flatten, Device.Perform;
    var bytes := InFlight(s);
    assert s.commands[0].location <= s.counted && bytes != [];
    assert Issued(s) == s.trace + [] + ([Data(bytes[0])] + Merge(s.ioWritten + 1, bytes[1..], s.commands));
    assert Issued(s)[|s.trace|] == Data(bytes[0]);
  }

  // ----- the bytes under way

  /** The counts agree in every run, also after the distance has gone wrong. */
  ghost predicate Tallied(s: State) {
    && s.fromMain.Valid() && s.fromSlave.Valid()
    && s.counted + s.uncounted == s.ioWritten + |InFlight(s)|
  }

  lemma StepTallies(s: State, e: Event)
    requires Tallied(s) && Enabled(s, e)
    ensures Tallied(Step(s, e))
  {
    hide Flatten, Items, Device.Write, Device.Perform, Buffer.Append, Buffer.Skip, Taken;
    match e
    case Pulse(bytes, allowPartial) => AppendUnread(s.fromSlave, bytes[..Taken(s, |bytes|, allowPartial)]);
    case SlaveRead(bytes) => AppendUnread(s.fromSlave, bytes);
    case SendBack(n) => SkipUnread(s.fromSlave, n);
    case SlaveWrite(n, _) => SkipUnread(s.fromMain, n);
    case Receive(n) => AppendUnread(s.fromMain, s.wire[..n]);
    case _ =>
  }

  lemma {:induction false} RunTallies(device: Device, events: seq<Event>)
    ensures Tallied(Run(Initial(device), events))
  {
    if events != [] {
      var s, e := Run(Initial(device), events[..|events| - 1]), events[|events| - 1];
      RunTallies(device, events[..|events| - 1]);
      hide Step;
      if Enabled(s, e) {
        StepTallies(s, e);
      }
    }
  }

  /** The socket never holds more than cap bytes. */
  ghost predicate WireWithin(device: Device, events: seq<Event>, cap: nat) {
    && |Run(Initial(device), events).wire| <= cap
    && (events != [] ==> WireWithin(device, events[..|events| - 1], cap))
  }

  lemma {:induction false} WireWithinMore(device: Device, events: seq<Event>, cap: nat, more: nat)
    requires WireWithin(device, events, cap) && cap <= more
    ensures WireWithin(device, events, more)
    decreases |events|
  {
    if events != [] {
      WireWithinMore(device, events[..|events| - 1], cap, more);
    }
  }

  /** A socket with room for fewer than 2^32 - 4096 bytes never lets the distance go wrong. */
  lemma {:induction false} SmallWireIsUnwrapped(device: Device, events: seq<Event>, cap: nat)
    requires WireWithin(device, events, cap) && cap + BUFFER_SIZE < TWO32
    ensures Unwrapped(Initial(device), events)
    decreases |events|
  {
    hide Run;
    if events != [] {
      var before := events[..|events| - 1];
      SmallWireIsUnwrapped(device, before, cap);
      RunTallies(device, before);
    }
  }

  // ----- a run on which it does, with sends that Write can make

  const CRITICAL: nat := TWO32 - BUFFER_SIZE

  ghost predicate Good(device: Device, events: seq<Event>) {
    Inv(Run(Initial(device), events)) && WireWithin(device, events, CRITICAL)
  }

  lemma More(device: Device, events: seq<Event>, e: Event) returns (longer: seq<Event>)
    requires Good(device, events)
    requires var s := Run(Initial(device), events);
             && s.fromMain.Valid() && s.fromSlave.Valid()
             && Enabled(s, e) && !(e.Check? && Stale(s)) && |Step(s, e).wire| <= CRITICAL
    ensures Good(device, longer) && Run(Initial(device), longer) == Step(Run(Initial(device), events), e)
  {
    hide Step, Inv, Stale;
    longer := events + [e];
    assert longer[..|events|] == events;
    StepKeeps(Run(Initial(device), events), e);
  }

  lemma EmptyRun(s: State)
    ensures Run(s, []) == s
  {
  }

  lemma OneFlush(device: Device) returns (events: seq<Event>)
    ensures Good(device, events)
    ensures Run(Initial(device), events)
         == Initial(device).(calls := [CommandCall(Flush)], curCmd := Command(0, Flush), trace := [Do(Flush)])
  {
    InitialInv(device);
    assert Good(device, []);
    hide Good, Run, Step;
    var s := Initial(device);
    assert Run(s, []) == s by { EmptyRun(s); }
    EnqueueStep(s, Flush);
    events := More(device, [], MainEnqueue(Flush));
    s := Run(Initial(device), events);
    PopStep(s);
    events := More(device, events, Check);
    s := Run(Initial(device), events);
    RunCommandStep(s);
    events := More(device, events, RunCommand);
  }

  /** The main thread sends bytes and counts them. */
  lemma Sent(device: Device, events: seq<Event>, bytes: seq<Byte>) returns (longer: seq<Event>)
    requires Good(device, events) && 0 < |bytes| <= MAX_SEND
    requires var s := Run(Initial(device), events);
             Ready(s) && !s.closed && s.uncounted == 0 && |s.wire| + |bytes| <= CRITICAL
    ensures Good(device, longer)
    ensures var s := Run(Initial(device), events);
            Run(Initial(device), longer) == s.(calls := s.calls + [WriteCall(bytes)], wire := s.wire + bytes,
                                              counted := s.counted + |bytes|)
  {
    hide Good, Run, Step;
    SendStep(Run(Initial(device), events), bytes);
    longer := More(device, events, MainSend(bytes));
    CountStep(Run(Initial(device), longer));
    longer := More(device, longer, MainCount);
  }

  /** A turn in which the thread only fills its empty buffer from the socket. */
  lemma Buffered(device: Device, events: seq<Event>) returns (longer: seq<Event>)
    requires Good(device, events)
    requires var s := Run(Initial(device), events);
             && s.pc == Waiting && s.commands == [] && !s.exitWhenDone && s.keepGoing
             && Ready(s) && s.fromMain == Buffer([], 0) && |s.wire| == BUFFER_SIZE
    ensures Good(device, longer)
    ensures var s := Run(Initial(device), events);
            Run(Initial(device), longer) == s.(bound := NO_LIMIT, fromMain := Buffer(s.wire, 0), wire := [])
  {
    hide Good, Run, Step;
    EmptyCheckStep(Run(Initial(device), events));
    longer := More(device, events, Check);
    IdleReadStep(Run(Initial(device), longer));
    longer := More(device, longer, SlaveRead([]));
    IdleWriteStep(Run(Initial(device), longer));
    longer := More(device, longer, SlaveWrite(0, true));
    ReceiveStep(Run(Initial(device), longer), BUFFER_SIZE);
    longer := More(device, longer, Receive(BUFFER_SIZE));
    IdleSendStep(Run(Initial(device), longer));
    longer := More(device, longer, SendBack(0));
  }

  /** A flush runs; then a full buffer and a socket holding 2^32 - 4096 bytes separate the thread
      from the next flush. */
  lemma FullDistance(device: Device) returns (events: seq<Event>)
    ensures Good(device, events)
    ensures var s := Run(Initial(device), events);
            s.pc == Waiting && s.curCmd == Command(0, Flush) && s.commands == [Command(TWO32, Flush)] && s.ioWritten == 0
  {
    hide Good, Run, Step;
    var a, b, c := Zeros(BUFFER_SIZE), Zeros(MAX_SEND), Zeros(CRITICAL - MAX_SEND);
    events := OneFlush(device);
    events := Sent(device, events, a);
    events := Buffered(device, events);
    events := Sent(device, events, b);
    events := Sent(device, events, c);
    EnqueueStep(Run(Initial(device), events), Flush);
    events := More(device, events, MainEnqueue(Flush));
  }

  function Zeros(n: nat): (s: seq<Byte>)
    ensures |s| == n
  {
    seq(n, _ => 0)
  }

  /** On such a run the earlier flush is run again, ahead of 2^32 bytes. */
  lemma WrappedDistanceRunsACommandTwice(device: Device) returns (events: seq<Event>)
    ensures WireWithin(device, events, CRITICAL)
    ensures var s := Run(Initial(device), events); !(s.trace <= Issued(s))
  {
    var start := FullDistance(device);
    assert WireWithin(device, start, CRITICAL) && |Run(Initial(device), start).wire| <= CRITICAL;
    var s := Run(Initial(device), start);
    assert Inv(s) && Stale(s);
    hide Inv, Issued, Next, Stale, WireWithin, Run;
    CheckAndRunIsSafeIff(s);
    events := start + [Check] + [RunCommand];
    WireStays(s, Check);
    OneMore(device, start, Check);
    WireStays(Next(s, Check), RunCommand);
    OneMore(device, start + [Check], RunCommand);
  }

  lemma OneMore(device: Device, events: seq<Event>, e: Event)
    requires WireWithin(device, events, CRITICAL) && |Next(Run(Initial(device), events), e).wire| <= CRITICAL
    ensures Run(Initial(device), events + [e]) == Next(Run(Initial(device), events), e)
    ensures WireWithin(device, events + [e], CRITICAL)
  {
    hide Next;
    assert (events + [e])[..|events|] == events;
  }

  lemma WireStays(s: State, e: Event)
    requires e.Check? || e.RunCommand?
    ensures Next(s, e).wire == s.wire
  {
  }

  /** The slave sees a prefix of what was issued in every run of every device, exactly when the
      socket between the threads holds fewer than 2^32 - 4096 bytes. */
  lemma TraceIsPrefixIff(cap: nat)
    ensures (forall device: Device, events :: WireWithin(device, events, cap) ==>
               Run(Initial(device), events).trace <= Issued(Run(Initial(device), events)))
            <==> cap + BUFFER_SIZE < TWO32
  {
    hide Run, Issued, WireWithin;
    if cap + BUFFER_SIZE < TWO32 {
      forall device: Device, events | WireWithin(device, events, cap)
        ensures Run(Initial(device), events).trace <= Issued(Run(Initial(device), events))
      {
        SmallWireIsUnwrapped(device, events, cap);
        TraceIsPrefix(device, events);
      }
    } else {
      var device := Device([], 0, true);
      var events := WrappedDistanceRunsACommandTwice(device);
      WireWithinMore(device, events, CRITICAL, cap);
    }
  }
}
