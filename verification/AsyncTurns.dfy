/** What single events do to a state, for building runs one event at a time. */
module AsyncTurns {
  import opened Machine
  import opened AsyncSpec

  ghost predicate Ready(s: State) { s.fromMain.Valid() && s.fromSlave.Valid() }

  lemma SendStep(s: State, bytes: seq<Byte>)
    requires Ready(s) && !s.closed && s.uncounted == 0 && 0 < |bytes| <= MAX_SEND
    ensures Enabled(s, MainSend(bytes))
    ensures Step(s, MainSend(bytes))
         == s.(calls := s.calls + [WriteCall(bytes)], wire := s.wire + bytes, uncounted := |bytes|)
  {
  }

  lemma CountStep(s: State)
    requires Ready(s)
    ensures Enabled(s, MainCount)
    ensures Step(s, MainCount) == s.(counted := s.counted + s.uncounted, uncounted := 0)
  {
  }

  lemma EnqueueStep(s: State, kind: Kind)
    requires Ready(s) && s.uncounted == 0 && !kind.Unknown?
    ensures Enabled(s, MainEnqueue(kind))
    ensures Step(s, MainEnqueue(kind))
         == s.(calls := s.calls + [CommandCall(kind)], commands := s.commands + [Command(s.counted, kind)])
  {
  }

  lemma CloseStep(s: State)
    requires Ready(s) && s.uncounted == 0
    ensures Enabled(s, MainClose) && Step(s, MainClose) == s.(closed := true)
  {
  }

  lemma PopStep(s: State)
    requires Ready(s) && s.pc == Waiting && s.commands != [] && s.commands[0].location <= s.ioWritten
    ensures Enabled(s, Check)
    ensures Step(s, Check) == s.(bound := 0, curCmd := s.commands[0], commands := s.commands[1..], pc := Running)
  {
  }

  lemma EmptyCheckStep(s: State)
    requires Ready(s) && s.pc == Waiting && s.commands == [] && !s.exitWhenDone
    ensures Enabled(s, Check) && Step(s, Check) == s.(bound := NO_LIMIT, pc := Reading)
  {
  }

  lemma MeasureStep(s: State)
    requires Ready(s) && s.pc == Waiting && s.commands != []
    requires 0 < s.commands[0].location - s.ioWritten < TWO32
    ensures Enabled(s, Check)
    ensures Step(s, Check) == s.(bound := s.commands[0].location - s.ioWritten, pc := Reading)
  {
  }

  lemma RunCommandStep(s: State)
    requires Ready(s) && s.pc == Running && s.keepGoing && !s.curCmd.kind.Unknown?
    ensures Enabled(s, RunCommand)
    ensures Step(s, RunCommand) == s.(device := s.device.Perform(s.curCmd.kind),
                                      trace := s.trace + [Do(s.curCmd.kind)], pc := Waiting)
  {
    hide Device.Perform;
  }

  lemma ReadStep(s: State, bytes: seq<Byte>)
    requires Ready(s) && s.pc == Reading && |bytes| <= s.fromSlave.Free() && s.device.open
    ensures Enabled(s, SlaveRead(bytes))
    ensures Step(s, SlaveRead(bytes))
         == s.(fromSlave := s.fromSlave.Append(bytes), sourced := s.sourced + bytes,
               device := s.device.Read(|bytes|), pc := Writing)
  {
  }

  lemma IdleReadStep(s: State)
    requires Ready(s) && s.pc == Reading
    ensures Enabled(s, SlaveRead([])) && Step(s, SlaveRead([])) == s.(pc := Writing)
  {
    assert s.fromSlave.data + [] == s.fromSlave.data && s.sourced + [] == s.sourced;
    assert s.device.Read(0) == s.device;
  }

  /** The thread writes the one byte it has buffered; with the end of the stream seen, it leaves. */
  lemma WriteStep(s: State, b: Byte)
    requires Ready(s) && s.pc == Writing && s.fromMain == Buffer([b], 0) && s.bound > 0 && s.device.open
    ensures Enabled(s, SlaveWrite(1, true))
    ensures Step(s, SlaveWrite(1, true))
         == s.(device := s.device.Write([b]), trace := s.trace + [Data(b)], ioWritten := s.ioWritten + 1,
               fromMain := Buffer([], 0), pc := if s.exitWhenDone then Exited(true) else Receiving)
  {
    hide Device.Write;
    assert s.fromMain.Unread()[..1] == [b] && Items([b]) == [Data(b)];
  }

  lemma IdleWriteStep(s: State)
    requires Ready(s) && s.pc == Writing && (s.exitWhenDone ==> s.fromMain.readIdx < |s.fromMain.data|)
    ensures Enabled(s, SlaveWrite(0, true)) && Step(s, SlaveWrite(0, true)) == s.(pc := Receiving)
  {
    assert s.trace + [] == s.trace;
  }

  lemma ReceiveStep(s: State, n: nat)
    requires Ready(s) && s.pc == Receiving && n <= |s.wire| && n <= s.fromMain.Free()
    ensures Enabled(s, Receive(n))
    ensures Step(s, Receive(n)) == s.(fromMain := s.fromMain.Append(s.wire[..n]), wire := s.wire[n..], pc := Sending)
  {
  }

  lemma ReceiveEndStep(s: State)
    requires Ready(s) && s.pc == Receiving
    ensures Enabled(s, ReceiveEnd) && Step(s, ReceiveEnd) == s.(exitWhenDone := true, pc := Sending)
  {
  }

  lemma IdleSendStep(s: State)
    requires Ready(s) && s.pc == Sending
    ensures Enabled(s, SendBack(0)) && Step(s, SendBack(0)) == s.(pc := LoopEnd(s))
  {
    assert s.delivered + [] == s.delivered;
  }
}
