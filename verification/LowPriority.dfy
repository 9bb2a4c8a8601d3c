/** The slow sender of ShareNetClient: low-priority messages are handed over in chunks of about
    4 kB, each chunk only after the previous one has drained. */
module LowPriority {
  const CHUNK_SIZE: nat := 4096

  /** A message and its flattened size, which always includes a header. */
  type Size = n: nat | n > 0 witness 12

  datatype Message = Message(id: int, size: Size)

  datatype Sender = Sender(
    connected: bool, sending: bool, queue: seq<Message>,
    handed: seq<Message>,      // low-priority messages given to the network thread, in order
    promised: seq<Message>,    // accepted and not explicitly cleared, in order
    outstanding: nat,          // drain notifications requested and not delivered
    chunk: seq<Message>)       // handed over since the last drain

  const IDLE := Sender(false, false, [], [], [], 0, [])

  function Bytes(ms: seq<Message>): nat {
    if ms == [] then 0 else Bytes(ms[..|ms| - 1]) + ms[|ms| - 1].size
  }

  /** How many messages at the head of the queue one chunk takes, with sent bytes before them. */
  function Takes(queue: seq<Message>, sent: nat): (n: nat)
    ensures n <= |queue|
  {
    if sent >= CHUNK_SIZE || queue == [] then 0 else 1 + Takes(queue[1..], sent + queue[0].size)
  }

  /** CheckSendMoreLowPriorityMessages; granted says whether the drain request succeeds. */
  function SendMore(s: Sender, granted: bool): Sender {
    if s.sending || !s.connected then s
    else
      var n := Takes(s.queue, 0);
      var t := s.(handed := s.handed + s.queue[..n], chunk := s.chunk + s.queue[..n], queue := s.queue[n..]);
      if n == 0 then t
      else if granted then t.(sending := true, outstanding := s.outstanding + 1)
      else t
  }

  datatype Event =
    | Connect
    | Disconnect
    | SendLow(m: Message, granted: bool)
    | ClearPending                 // RemoveFileSharing
    | Drained(granted: bool)

  function Next(s: Sender, e: Event): Sender {
    match e
    case Connect => if s.connected then s else s.(connected := true, outstanding := 0, chunk := [])
    case Disconnect => s.(connected := false, sending := false, queue := [], promised := s.handed, outstanding := 0)
    case SendLow(m, granted) =>
      if s.connected then SendMore(s.(queue := s.queue + [m], promised := s.promised + [m]), granted) else s
    case ClearPending => if s.connected then s.(queue := [], promised := s.handed) else s
    case Drained(granted) =>
      if s.outstanding == 0 || !s.connected then s
      else SendMore(s.(sending := false, outstanding := s.outstanding - 1, chunk := []), granted)
  }

  function Run(events: seq<Event>): Sender {
    if events == [] then IDLE else Next(Run(events[..|events| - 1]), events[|events| - 1])
  }

  predicate Granted(e: Event) {
    match e
    case SendLow(_, granted) => granted
    case Drained(granted) => granted
    case _ => true
  }

  // ----- one chunk

  lemma {:induction false} TakesBounds(queue: seq<Message>, sent: nat)
    ensures var n := Takes(queue, sent);
            && (n > 0 ==> sent + Bytes(queue[..n - 1]) < CHUNK_SIZE)
            && (n == 0 <==> queue == [] || sent >= CHUNK_SIZE)
            && (n < |queue| ==> sent + Bytes(queue[..n]) >= CHUNK_SIZE)
    decreases |queue|
  {
    if sent < CHUNK_SIZE && queue != [] {
      var n := Takes(queue, sent);
      TakesBounds(queue[1..], sent + queue[0].size);
      if n > 1 {
        BytesFromFront(queue[..n - 1]);
        assert queue[..n - 1][1..] == queue[1..][..n - 2];
      }
      BytesFromFront(queue[..n]);
      assert queue[..n][1..] == queue[1..][..n - 1];
    }
  }

  lemma {:induction false} BytesFromFront(ms: seq<Message>)
    requires ms != []
    ensures Bytes(ms) == ms[0].size + Bytes(ms[1..])
    decreases |ms|
  {
    if |ms| > 1 {
      BytesFromFront(ms[..|ms| - 1]);
      assert ms[1..][..|ms| - 2] == ms[..|ms| - 1][1..];
    }
  }

  // ----- whole runs

  ghost predicate Fifo(s: Sender) {
    s.promised == s.handed + s.queue
  }

  /** The chunk without its last message is below the limit. */
  ghost predicate ChunkBounded(s: Sender) {
    && (s.chunk != [] ==> Bytes(s.chunk[..|s.chunk| - 1]) < CHUNK_SIZE)
    && (s.connected && !s.sending ==> s.chunk == [])
  }

  ghost predicate Inv(s: Sender) {
    && Fifo(s) && ChunkBounded(s)
    && (s.sending ==> s.connected && s.outstanding > 0)
    && (s.connected && s.queue != [] ==> s.sending) && (!s.connected ==> s.queue == [])
    && (s.outstanding <= 1) && (s.outstanding > 0 ==> s.sending)
  }

  lemma SendMoreKeeps(s: Sender)
    requires Fifo(s) && s.outstanding == 0 && s.connected && !s.sending && s.chunk == []
    ensures Inv(SendMore(s, true))
  {
    var n := Takes(s.queue, 0);
    TakesBounds(s.queue, 0);
    hide Takes, Bytes;
    Split(s.handed, s.queue, n);
    assert [] + s.queue[..n] == s.queue[..n];
    if n > 0 {
      assert s.queue[..n][..n - 1] == s.queue[..n - 1];
    }
  }

  lemma Split(h: seq<Message>, q: seq<Message>, n: nat)
    requires n <= |q|
    ensures h + q == h + q[..n] + q[n..]
  {
  }

  lemma {:induction false} RunKeeps(events: seq<Event>)
    requires forall e :: e in events ==> Granted(e)
    ensures Inv(Run(events))
    decreases |events|
  {
    if events != [] {
      var s, e := Run(events[..|events| - 1]), events[|events| - 1];
      RunKeeps(events[..|events| - 1]);
      hide SendMore, Takes, Bytes;
      assert Granted(e);
      assert s.handed + [] == s.handed;
      match e
      case SendLow(m, _) =>
        if s.connected {
          var t := s.(queue := s.queue + [m], promised := s.promised + [m]);
          if s.sending {
            Waits(t, true);
          } else {
            assert s.handed + (s.queue + [m]) == s.handed + s.queue + [m];
            SendMoreKeeps(t);
          }
        }
      case Drained(_) =>
        if s.outstanding > 0 && s.connected {
          SendMoreKeeps(s.(sending := false, outstanding := s.outstanding - 1, chunk := []));
        }
      case _ =>
    }
  }

  lemma Waits(s: Sender, granted: bool)
    requires s.sending
    ensures SendMore(s, granted) == s
  {
  }

  /** Messages are handed over once each, in the order given, except those explicitly cleared. */
  lemma {:induction false} HandedOverInOrder(events: seq<Event>)
    ensures Fifo(Run(events))
    decreases |events|
  {
    if events != [] {
      var s, e := Run(events[..|events| - 1]), events[|events| - 1];
      HandedOverInOrder(events[..|events| - 1]);
      var q := if e.SendLow? then s.queue + [e.m] else s.queue;
      Split(s.handed, q, Takes(q, 0));
      assert s.handed + [] == s.handed;
    }
  }

  /** While drain requests succeed, whatever is queued has a drain coming that will send it, and
      what one drain interval hands over is below 4 kB but for its last message. */
  lemma QueueIsPacedAndNeverStuck(events: seq<Event>)
    requires forall e :: e in events ==> Granted(e)
    ensures var s := Run(events);
            && (s.connected && s.queue != [] ==> s.sending && s.outstanding == 1)
            && (s.chunk != [] ==> Bytes(s.chunk[..|s.chunk| - 1]) < 4096)
  {
    RunKeeps(events);
  }

  lemma RunOne(events: seq<Event>, e: Event)
    ensures Run(events + [e]) == Next(Run(events), e)
  {
    assert (events + [e])[..|events|] == events;
  }

  // ----- what was asked for, from the events alone

  /** The messages that a connection's events ask to send. */
  function Asked(events: seq<Event>): seq<Message> {
    if events == [] then []
    else
      Asked(events[..|events| - 1])
      + if events[|events| - 1].SendLow? then [events[|events| - 1].m] else []
  }

  predicate Sending(events: seq<Event>) {
    forall e :: e in events ==> e.SendLow? || e.Drained?
  }

  /** On a new connection every message asked for is handed over or queued, once and in order,
      whatever the requests for drains answer. */
  lemma {:induction false} EveryMessageIsHandedOverOrQueued(events: seq<Event>)
    requires Sending(events)
    ensures var s := Run([Connect] + events);
            s.connected && s.handed + s.queue == Asked(events)
    decreases |events|
  {
    hide Takes, SendMore;
    var all := [Connect] + events;
    if events == [] {
      assert all == [Connect] && all[..0] == [];
      assert Run([]) == IDLE;
    } else {
      var e := events[|events| - 1];
      assert e in events && forall d :: d in events[..|events| - 1] ==> d in events;
      EveryMessageIsHandedOverOrQueued(events[..|events| - 1]);
      assert all[..|all| - 1] == [Connect] + events[..|events| - 1];
      NextKeepsAsked(Run([Connect] + events[..|events| - 1]), e);
    }
  }

  lemma NextKeepsAsked(s: Sender, e: Event)
    requires s.connected && (e.SendLow? || e.Drained?)
    ensures var t := Next(s, e);
            t.connected && t.handed + t.queue == s.handed + s.queue + if e.SendLow? then [e.m] else []
  {
    hide Takes;
    if e.SendLow? {
      assert s.handed + (s.queue + [e.m]) == s.handed + s.queue + [e.m];
    }
    var q := if e.SendLow? then s.queue + [e.m] else s.queue;
    Split(s.handed, q, Takes(q, 0));
    assert s.handed + s.queue + [] == s.handed + s.queue;
  }

  /** Every drain hands over at least one waiting message, and all of them when they are fewer than
      4096 bytes without the last. */
  lemma DrainsMakeProgress(s: Sender, granted: bool)
    requires s.connected && s.outstanding > 0 && s.queue != []
    ensures var t := Next(s, Drained(granted));
            && |t.queue| < |s.queue| && s.queue[|s.queue| - |t.queue|..] == t.queue
            && (Bytes(s.queue[..|s.queue| - 1]) < 4096 ==> t.queue == [])
            && t.outstanding == s.outstanding - 1 + if granted then 1 else 0
  {
    TakesBounds(s.queue, 0);
    var n := Takes(s.queue, 0);
    if n < |s.queue| {
      BytesGrow(s.queue, n, |s.queue| - 1);
    }
  }

  lemma {:induction false} BytesGrow(ms: seq<Message>, j: nat, k: nat)
    requires j <= k <= |ms|
    ensures Bytes(ms[..j]) <= Bytes(ms[..k])
    decreases k
  {
    if j < k {
      BytesGrow(ms, j, k - 1);
      assert ms[..k][..k - 1] == ms[..k - 1];
    }
  }

  /** Clearing and disconnecting drop exactly what waits; and nothing is accepted while there is no
      connection. */
  lemma WhatIsDropped(s: Sender, m: Message, granted: bool)
    ensures Next(s, Disconnect).handed == s.handed && Next(s, Disconnect).queue == [] && !Next(s, Disconnect).connected
    ensures s.connected ==> Next(s, ClearPending) == s.(queue := [], promised := s.handed)
    ensures !s.connected ==> Next(s, SendLow(m, granted)) == s && Next(s, ClearPending) == s
    ensures !s.connected ==> Next(s, Connect).connected && Next(s, Connect).queue == s.queue
  {
  }

  // ----- exactly when the queue is left without a drain

  /** Messages wait, and no drain is to come. */
  predicate Stranded(s: Sender) { s.connected && s.queue != [] && s.outstanding == 0 }

  /** What holds of the flags in every run, refused requests included. */
  ghost predicate Flags(s: Sender) {
    && s.outstanding == (if s.sending then 1 else 0)
    && (s.sending ==> s.connected) && (!s.connected ==> s.queue == [])
  }

  /** A chunk strands the rest of the queue exactly if its request is refused and there is a rest. */
  lemma ChunkStrandsIff(s: Sender, granted: bool)
    requires s.connected && !s.sending && s.outstanding == 0
    ensures Stranded(SendMore(s, granted)) <==> !granted && Takes(s.queue, 0) < |s.queue|
    ensures Flags(SendMore(s, granted))
  {
    TakesBounds(s.queue, 0);
  }

  /** The drain of one chunk is answered with a refusal while more than another chunk waits. */
  predicate RefusedTooSoon(s: Sender, e: Event) {
    e == Drained(false) && s.connected && s.outstanding > 0 && Takes(s.queue, 0) < |s.queue|
  }

  lemma StepStrandsIff(s: Sender, e: Event)
    requires Flags(s)
    ensures Flags(Next(s, e))
    ensures !Stranded(s) ==> (Stranded(Next(s, e)) <==> RefusedTooSoon(s, e))
  {
    match e
    case SendLow(m, granted) =>
      if s.connected && !s.sending {
        var t := s.(queue := s.queue + [m], promised := s.promised + [m]);
        ChunkStrandsIff(t, granted);
        if s.queue == [] {
          assert t.queue[1..] == [];
          TakesAll(t.queue);
        }
      }
    case Drained(granted) =>
      if s.connected && s.outstanding > 0 {
        ChunkStrandsIff(s.(sending := false, outstanding := s.outstanding - 1, chunk := []), granted);
      }
    case _ =>
  }

  lemma TakesAll(queue: seq<Message>)
    requires |queue| == 1
    ensures Takes(queue, 0) == 1
  {
  }

  ghost predicate NeverStranded(events: seq<Event>) {
    !Stranded(Run(events)) && (events != [] ==> NeverStranded(events[..|events| - 1]))
  }

  ghost predicate NeverRefusedTooSoon(events: seq<Event>) {
    events != [] ==>
      && NeverRefusedTooSoon(events[..|events| - 1])
      && !RefusedTooSoon(Run(events[..|events| - 1]), events[|events| - 1])
  }

  lemma {:induction false} RunKeepsFlags(events: seq<Event>)
    ensures Flags(Run(events))
    decreases |events|
  {
    hide Next, Flags;
    if events == [] {
      assert Flags(IDLE) by { IdleFlags(); }
    } else {
      RunKeepsFlags(events[..|events| - 1]);
      StepStrandsIff(Run(events[..|events| - 1]), events[|events| - 1]);
    }
  }

  lemma IdleFlags()
    ensures Flags(IDLE) && !Stranded(IDLE)
  {
  }

  /** In a run, whatever is queued always has a drain to come, if and only if no request is refused
      while more waits than one chunk takes. */
  lemma {:induction false} QueueIsNeverStrandedIff(events: seq<Event>)
    ensures NeverStranded(events) <==> NeverRefusedTooSoon(events)
    decreases |events|
  {
    hide Next, Flags, Stranded, RefusedTooSoon;
    if events == [] {
      IdleFlags();
    } else {
      var before := events[..|events| - 1];
      QueueIsNeverStrandedIff(before);
      RunKeepsFlags(before);
      assert NeverStranded(before) ==> !Stranded(Run(before));
      StepStrandsIff(Run(before), events[|events| - 1]);
    }
  }

  /** Such a run: one refused request leaves a message waiting with no drain to come. */
  lemma RefusedRequestStrandsTheQueue(a: Message, b: Message)
    requires a.size >= CHUNK_SIZE && b.size >= CHUNK_SIZE
    ensures var s := Run([Connect] + [SendLow(a, true)] + [SendLow(b, true)] + [SendLow(a, true)] + [Drained(false)]);
            s.connected && s.queue == [a] && s.outstanding == 0
  {
    var e1 := [Connect];
    var e2 := e1 + [SendLow(a, true)];
    var e3 := e2 + [SendLow(b, true)];
    assert [] + e1 == e1;
    RunOne([], Connect);
    RunOne(e1, SendLow(a, true));
    RunOne(e2, SendLow(b, true));
    RunOne(e3, SendLow(a, true));
    RunOne(e3 + [SendLow(a, true)], Drained(false));
    hide Run;
    TakesOne([a]);
    TakesOne([b, a]);
    assert Run(e2).queue == [] && Run(e2).sending && Run(e2).outstanding == 1;
    assert Run(e3 + [SendLow(a, true)]).queue == [b, a];
  }

  lemma TakesOne(queue: seq<Message>)
    requires queue != [] && queue[0].size >= CHUNK_SIZE
    ensures Takes(queue, 0) == 1
  {
  }

  // ----- the object

  class ShareNetClient {
    var connected: bool
    var sendingLowPriorityMessages: bool
    var lowPriorityMessages: seq<Message>
    var outstanding: nat
    ghost var handed: seq<Message>
    ghost var promised: seq<Message>
    ghost var chunk: seq<Message>

    ghost function View(): Sender
      reads this
    {
      Sender(connected, sendingLowPriorityMessages, lowPriorityMessages, handed, promised, outstanding, chunk)
    }

    constructor ()
      ensures View() == IDLE
    {
      connected, sendingLowPriorityMessages, lowPriorityMessages, outstanding := false, false, [], 0;
      handed, promised, chunk := [], [], [];
    }

    method CheckSendMoreLowPriorityMessages(granted: bool)
      modifies this
      ensures View() == SendMore(old(View()), granted)
    {
      if !sendingLowPriorityMessages && connected {
        ghost var q, h, c := lowPriorityMessages, handed, chunk;
        ghost var k := 0;
        var numBytesSent: nat := 0;
        while numBytesSent < CHUNK_SIZE && lowPriorityMessages != []
          invariant 0 <= k <= Takes(q, 0) && lowPriorityMessages == q[k..]
          invariant k + Takes(lowPriorityMessages, numBytesSent) == Takes(q, 0)
          invariant handed == h + q[..k] && chunk == c + q[..k]
          invariant numBytesSent > 0 <==> k > 0
          invariant connected == old(connected) && sendingLowPriorityMessages == old(sendingLowPriorityMessages)
          invariant promised == old(promised) && outstanding == old(outstanding)
          decreases |lowPriorityMessages|
        {
          var temp := lowPriorityMessages[0];
          lowPriorityMessages := lowPriorityMessages[1..];
          numBytesSent := numBytesSent + temp.size;
          handed, chunk := handed + [temp], chunk + [temp];
          k := k + 1;
          assert q[..k] == q[..k - 1] + [temp];
        }
        if numBytesSent > 0 {
          sendingLowPriorityMessages := granted;
          if granted {
            outstanding := outstanding + 1;
          }
        }
      }
    }

    method SendMessageToSessions(msg: Message, granted: bool)
      modifies this
      ensures View() == Next(old(View()), SendLow(msg, granted))
    {
      if connected {
        lowPriorityMessages := lowPriorityMessages + [msg];
        promised := promised + [msg];
        CheckSendMoreLowPriorityMessages(granted);
      }
    }

    method OutputQueuesDrained(granted: bool)
      requires connected && outstanding > 0
      modifies this
      ensures View() == Next(old(View()), Drained(granted))
    {
      outstanding, chunk := outstanding - 1, [];
      sendingLowPriorityMessages := false;
      CheckSendMoreLowPriorityMessages(granted);
    }

    method DisconnectFromServer()
      modifies this
      ensures View() == Next(old(View()), Disconnect)
    {
      connected, outstanding := false, 0;
      lowPriorityMessages, promised := [], handed;
      sendingLowPriorityMessages := false;
    }
  }
}
