/** The life of one transfer: connecting, losing the connection, restarting by itself after it
    has received something, and the one retry by way of a connect-back request. */
module Lifecycle {
  datatype Memory = Memory(autoRestart: bool, wasConnected: bool, triedFallback: bool)

  datatype Role = Role(upload: bool, acceptSession: bool, remoteKnown: bool)

  /** session: there is a transceiver thread. */
  datatype Link = Link(
    session: bool, accepting: bool, connecting: bool, connected: bool,
    waitingOnLocal: bool, finished: bool, error: bool)

  /** total: files at the last start, or -1; wanted: files that a restart would ask for. */
  datatype Progress = Progress(bytesDone: int, size: int, index: int, total: int, wanted: nat)

  /** What has happened so far. Of the losses of a connection, some were answered by an automatic
      restart (revived), some by telling the window (told), and some by posting a connect-back
      retry, which is pending until the window restarts the transfer (retried) or cannot
      (declined, and told). */
  datatype History = History(
    restarts: nat, chunks: nat, connections: nat, notices: nat,
    losses: nat, revived: nat, told: nat, posts: nat, retried: nat, declined: nat, pending: nat)

  const NOTHING_YET := History(0, 0, 0, 0, 0, 0, 0, 0, 0, 0, 0)

  datatype Transfer = Transfer(memory: Memory, role: Role, link: Link, progress: Progress, history: History)

  function Fresh(wanted: nat, remoteKnown: bool): Transfer {
    Transfer(Memory(false, false, false), Role(false, false, remoteKnown),
             Link(false, false, false, false, true, false, false),
             Progress(-1, -1, 0, 0, wanted), NOTHING_YET)
  }

  /** An upload over a socket that a peer has opened: InitSocketUploadSession. */
  const INBOUND :=
    Transfer(Memory(false, false, false), Role(true, false, false),
             Link(true, false, false, true, true, false, false), Progress(-1, -1, 0, -1, 0), NOTHING_YET)

  function Noticed(h: History): History { h.(notices := h.notices + 1) }

  /** InitConnectSession or InitAcceptSession, by whether an address is known. */
  function Initialized(t: Transfer): Transfer {
    var accept := !t.role.remoteKnown;
    t.(role := t.role.(acceptSession := accept, upload := t.progress.wanted == 0),
       link := t.link.(accepting := t.link.accepting || accept, session := true),
       progress := t.progress.(total := t.progress.wanted, bytesDone := -1, size := -1))
  }

  /** What AbortSession does before it considers a restart. */
  function Closed(t: Transfer, error: bool, notify: bool): Transfer {
    t.(link := Link(false, false, false, false, false, true, error),
       progress := t.progress.(bytesDone := -1, size := -1),
       history := if t.link.session && notify then Noticed(t.history) else t.history)
  }

  function Restarted(t: Transfer): Transfer {
    Initialized(
      t.(memory := t.memory.(autoRestart := false),
         link := Link(false, false, false, false, true, false, false),
         progress := Progress(-1, -1, 0, t.progress.wanted, t.progress.wanted)))
  }

  function RestartedByItself(t: Transfer): Transfer {
    var r := Restarted(t);
    r.(history := r.history.(restarts := r.history.restarts + 1))
  }

  function Stopped(t: Transfer, error: bool, forceNoRestart: bool, notify: bool): Transfer {
    var c := Closed(t, error, notify);
    if error && !forceNoRestart && t.memory.autoRestart then RestartedByItself(c)
    else c.(memory := c.memory.(autoRestart := false))
  }

  predicate Incomplete(p: Progress) { p.bytesDone < p.size || p.index < p.total }

  /** The failed connection is worth one retry in which the peer connects to us. */
  predicate WantsConnectBack(t: Transfer) {
    && (t.link.error || Incomplete(t.progress)) && !t.role.upload && !t.memory.wasConnected
    && !t.role.acceptSession && !t.memory.triedFallback
  }

  function Posted(h: History): History { h.(pending := h.pending + 1, posts := h.posts + 1) }

  function Told(h: History): History { Noticed(h.(told := h.told + 1)) }

  /** The books of one loss. */
  function Booked(h: History, restart: bool, retry: bool): History {
    var g := h.(losses := h.losses + 1);
    var posted := if retry then Posted(g) else g;
    if restart then posted.(revived := posted.revived + 1) else if retry then posted else Told(posted)
  }

  function Lost(t: Transfer): Transfer {
    var retry := WantsConnectBack(t);
    var restart := t.memory.autoRestart && Incomplete(t.progress);
    var d := t.(memory := t.memory.(autoRestart := restart, triedFallback := t.memory.triedFallback || retry),
                link := Link(false, false, false, false, false, true, t.link.error || Incomplete(t.progress)),
                history := Booked(t.history, restart, retry));
    if restart then RestartedByItself(d) else d
  }

  /** listed: the file's name is still in the original set. */
  function Chunk(t: Transfer, numBytes: nat, listed: bool): Transfer {
    var p := t.progress;
    var done := p.bytesDone + numBytes >= p.size && listed && p.wanted > 0;
    t.(memory := t.memory.(autoRestart := true),
       progress := p.(bytesDone := p.bytesDone + numBytes, wanted := if done then p.wanted - 1 else p.wanted),
       history := t.history.(chunks := t.history.chunks + 1))
  }

  datatype Event =
    | Begin(ok: bool)                                     // BeginTransfer
    | Connected(ok: bool)                                 // connected or accepted; ok: hashing was started
    | Disconnected                                        // MTT_EVENT_SESSION_DISCONNECTED
    | Header(size: int, start: nat, previousListed: bool)
    | ChunkWritten(numBytes: nat, listed: bool)           // listed: the name is still in the original set
    | UploadMoved(bytesDone: int, size: int, index: int, total: int)   // the cursor of an upload
    | Aborted(error: bool, forceNoRestart: bool, notify: bool)
    | Resumed                                             // RestartSession, asked for by the user
    | ConnectBackHandled(reachable: bool, ready: bool)    // the window gets to a posted retry

  predicate Enabled(t: Transfer, e: Event) {
    match e
    case Begin(_) => t.link.waitingOnLocal
    case Connected(_) => t.link.session
    case Disconnected => t.link.session
    case Header(_, _, _) => t.link.session && t.link.connected && !t.role.upload
    case ChunkWritten(_, _) => t.link.session && t.link.connected && !t.role.upload
    case UploadMoved(_, _, _, _) => t.link.session && t.link.connected && t.role.upload
    case Aborted(_, _, _) => true
    case Resumed => true
    case ConnectBackHandled(_, _) => t.history.pending > 0
  }

  function Begun(t: Transfer, ok: bool): Transfer {
    var startConnect := if t.role.upload then !t.link.connected else !t.link.accepting;
    t.(link := t.link.(waitingOnLocal := false,
                       connecting := t.link.connecting || (startConnect && t.link.session && ok)))
  }

  function Joined(t: Transfer, ok: bool): Transfer {
    var c := t.(memory := t.memory.(wasConnected := true),
                link := t.link.(connecting := false, connected := true),
                history := t.history.(connections := t.history.connections + 1));
    if t.role.upload || ok then c else Stopped(c, true, false, true)
  }

  function Headed(t: Transfer, size: int, start: nat, previousListed: bool): Transfer {
    var p := t.progress;
    t.(progress := Progress(start, size, p.index + 1, p.total,
                            if previousListed && p.wanted > 0 then p.wanted - 1 else p.wanted))
  }

  /** reachable: the peer can connect to us and is still there; ready: the download was set up. */
  function Handled(t: Transfer, reachable: bool, ready: bool): Transfer
    requires t.history.pending > 0
  {
    var h := t.history.(pending := t.history.pending - 1);
    var active := !t.link.waitingOnLocal && !t.link.finished;
    var declined := Told(h.(declined := h.declined + 1));
    if t.role.upload || active || !reachable then t.(history := declined)
    else
      var forgotten := t.role.(remoteKnown := false);
      if ready then Restarted(t.(role := forgotten, history := h.(retried := h.retried + 1)))
      else t.(role := forgotten, history := declined)
  }

  function Next(t: Transfer, e: Event): Transfer {
    if !Enabled(t, e) then t
    else
      match e
      case Begin(ok) => Begun(t, ok)
      case Connected(ok) => Joined(t, ok)
      case Disconnected => Lost(t)
      case Header(size, start, previousListed) => Headed(t, size, start, previousListed)
      case ChunkWritten(numBytes, listed) => Chunk(t, numBytes, listed)
      case UploadMoved(bytesDone, size, index, total) =>
        t.(progress := Progress(bytesDone, size, index, total, t.progress.wanted))
      case Aborted(error, forceNoRestart, notify) => Stopped(t, error, forceNoRestart, notify)
      case Resumed => Restarted(t)
      case ConnectBackHandled(reachable, ready) => Handled(t, reachable, ready)
  }

  function Run(t: Transfer, events: seq<Event>): Transfer {
    if events == [] then t else Next(Run(t, events[..|events| - 1]), events[|events| - 1])
  }

  // ----- what every step keeps

  predicate IsStart(t: Transfer) {
    t == INBOUND || t == Fresh(t.progress.wanted, t.role.remoteKnown)
  }

  ghost predicate Flags(t: Transfer) {
    && (t.memory.autoRestart ==> t.memory.wasConnected)
    && (t.link.connected ==> t.memory.wasConnected || t.role.upload)
    && (t.memory.wasConnected <==> t.history.connections > 0)
    && t.history.posts == (if t.memory.triedFallback then 1 else 0)
  }

  ghost predicate Inv(t: Transfer) { Flags(t) && Balanced(t.history) }

  /** Every loss is answered once, and every posted retry is handled once or still pending. */
  ghost predicate Balanced(h: History) {
    && h.losses == h.revived + h.told + h.retried + h.pending
    && h.posts == h.retried + h.declined + h.pending
  }

  lemma StepKeepsFlags(t: Transfer, e: Event)
    requires Flags(t)
    ensures Flags(Next(t, e))
  {
  }

  lemma StepKeepsBalance(t: Transfer, e: Event)
    requires t.memory.autoRestart ==> t.memory.wasConnected
    requires Balanced(t.history)
    ensures Balanced(Next(t, e).history)
  {
  }

  lemma StepKeeps(t: Transfer, e: Event)
    requires Inv(t)
    ensures Inv(Next(t, e))
  {
    StepKeepsFlags(t, e);
    StepKeepsBalance(t, e);
    hide Next;
  }

  lemma StartInv(t: Transfer)
    requires IsStart(t)
    ensures Inv(t)
  {
  }

  lemma {:induction false} RunKeeps(start: Transfer, events: seq<Event>)
    requires IsStart(start)
    ensures Inv(Run(start, events))
    decreases |events|
  {
    hide Next, Inv, IsStart;
    if events == [] {
      StartInv(start);
    } else {
      RunKeeps(start, events[..|events| - 1]);
      StepKeeps(Run(start, events[..|events| - 1]), events[|events| - 1]);
    }
  }

  function Credit(t: Transfer): nat { if t.memory.autoRestart then 1 else 0 }

  lemma StepSpendsCredit(t: Transfer, e: Event)
    ensures var n := Next(t, e);
            && n.history.restarts - t.history.restarts + Credit(n) <= n.history.chunks - t.history.chunks + Credit(t)
            && n.history.restarts >= t.history.restarts && n.history.chunks >= t.history.chunks
  {
  }

  /** Over any stretch of a run the automatic restarts do not outnumber the chunks written in it,
      but for the one that a chunk before it may have earned. */
  lemma {:induction false} RestartsAreEarned(t: Transfer, events: seq<Event>)
    ensures var n := Run(t, events);
            n.history.restarts - t.history.restarts + Credit(n) <= n.history.chunks - t.history.chunks + Credit(t)
    decreases |events|
  {
    if events != [] {
      RestartsAreEarned(t, events[..|events| - 1]);
      StepSpendsCredit(Run(t, events[..|events| - 1]), events[|events| - 1]);
    }
  }

  /** Over a whole run automatic restarts never outnumber chunks written. */
  lemma RestartsNeverOutnumberChunks(start: Transfer, events: seq<Event>)
    requires IsStart(start)
    ensures var h := Run(start, events).history; h.restarts <= h.chunks
  {
    RestartsAreEarned(start, events);
  }

  /** Once stopped by force or finished without error, a transfer does not start again by itself
      until another chunk has been written. */
  lemma StoppedStaysStopped(t: Transfer, error: bool, forceNoRestart: bool, notify: bool, events: seq<Event>)
    requires !error || forceNoRestart
    ensures var s := Next(t, Aborted(error, forceNoRestart, notify));
            && s.history.restarts == t.history.restarts
            && Run(s, events).history.restarts - s.history.restarts
               <= Run(s, events).history.chunks - s.history.chunks
  {
    RestartsAreEarned(Next(t, Aborted(error, forceNoRestart, notify)), events);
  }

  // ----- what outlives a restart

  /** The same but for the history, of which only the pending retries matter. */
  ghost predicate Alike(t: Transfer, u: Transfer) {
    t == u.(history := t.history) && t.history.pending == u.history.pending
  }

  lemma StepStaysAlike(t: Transfer, u: Transfer, e: Event)
    requires Alike(t, u)
    ensures Alike(Next(t, e), Next(u, e))
  {
  }

  lemma {:induction false} RunStaysAlike(t: Transfer, u: Transfer, events: seq<Event>)
    requires Alike(t, u)
    ensures Alike(Run(t, events), Run(u, events))
    decreases |events|
  {
    if events != [] {
      RunStaysAlike(t, u, events[..|events| - 1]);
      hide Next, Alike;
      StepStaysAlike(Run(t, events[..|events| - 1]), Run(u, events[..|events| - 1]), events[|events| - 1]);
    }
  }

  /** Whatever happened before a restart, every run after it is that of a fresh transfer of the
      files still wanted, except for whether a connection was ever made, whether the retry was
      used, and retries still pending. */
  lemma RestartIsAFreshStart(t: Transfer, events: seq<Event>)
    ensures var start := Initialized(Fresh(t.progress.wanted, t.role.remoteKnown))
                         .(memory := t.memory.(autoRestart := false),
                           history := NOTHING_YET.(pending := t.history.pending));
            Alike(Run(Restarted(t), events), Run(start, events))
  {
    var start := Initialized(Fresh(t.progress.wanted, t.role.remoteKnown))
                 .(memory := t.memory.(autoRestart := false),
                   history := NOTHING_YET.(pending := t.history.pending));
    RunStaysAlike(Restarted(t), start, events);
  }

  // ----- losses and retries

  /** The connect-back retry is posted at most once in a run: by the first loss of an outgoing
      download that ends incomplete or in error before any connection was ever made. */
  lemma ConnectBackIsTriedOnce(start: Transfer, events: seq<Event>, e: Event)
    requires IsStart(start)
    ensures var t := Run(start, events);
            && Next(t, e).history.posts <= 1
            && (Next(t, e).history.posts > t.history.posts <==>
                  && e.Disconnected? && t.link.session && t.history.connections == 0 && t.history.posts == 0
                  && !t.role.upload && !t.role.acceptSession
                  && (t.link.error || t.progress.bytesDone < t.progress.size || t.progress.index < t.progress.total))
  {
    hide Run;
    RunKeeps(start, events);
    StepKeeps(Run(start, events), e);
  }

  /** Over a whole run every loss of a connection is answered in exactly one way: by an automatic
      restart, by telling the window, by a retry that restarted, or by a retry still pending. */
  lemma LossIsAnsweredOnce(start: Transfer, events: seq<Event>)
    requires IsStart(start)
    ensures var h := Run(start, events).history;
            h.losses == h.revived + h.told + h.retried + h.pending
  {
    RunKeeps(start, events);
  }

  /** A posted retry is pending until it is handled, once: by a restart, or by the notice that was
      held back for it. */
  lemma RetryIsNeverForgotten(start: Transfer, events: seq<Event>)
    requires IsStart(start)
    ensures var h := Run(start, events).history;
            h.posts == h.retried + h.declined + h.pending <= 1 && h.declined <= h.told <= h.notices
  {
    RunKeeps(start, events);
    NoticesAreTold(start, events);
  }

  lemma {:induction false} NoticesAreTold(start: Transfer, events: seq<Event>)
    requires IsStart(start)
    ensures var h := Run(start, events).history; h.declined <= h.told <= h.notices
    decreases |events|
  {
    if events != [] {
      NoticesAreTold(start, events[..|events| - 1]);
      hide Run;
      NoticesStayTold(Run(start, events[..|events| - 1]), events[|events| - 1]);
    }
  }

  lemma NoticesStayTold(t: Transfer, e: Event)
    requires t.history.declined <= t.history.told <= t.history.notices
    ensures var h := Next(t, e).history; h.declined <= h.told <= h.notices
  {
  }

  // ----- exactly when a transfer starts over

  /** A lost connection restarts the transfer if and only if a chunk has earned it and the current
      file or the list is unfinished; otherwise the transfer is over. */
  lemma LossRestartsIff(t: Transfer)
    requires t.link.session
    ensures var n, p := Next(t, Disconnected), t.progress;
            if t.memory.autoRestart && (p.bytesDone < p.size || p.index < p.total)
            then n.history.restarts == t.history.restarts + 1 && StartedOver(n)
            else n.history.restarts == t.history.restarts && n.link.finished && !n.link.session
  {
  }

  /** An abort does so if and only if it is an error, not forced, and a chunk has earned it. */
  lemma AbortRestartsIff(t: Transfer, error: bool, forceNoRestart: bool, notify: bool)
    ensures var n := Next(t, Aborted(error, forceNoRestart, notify));
            && (if error && !forceNoRestart && t.memory.autoRestart
                then n.history.restarts == t.history.restarts + 1 && StartedOver(n)
                else n.history.restarts == t.history.restarts && n.link.finished && !n.link.session
                     && n.link.error == error)
            && !n.memory.autoRestart
            && n.history.notices == t.history.notices + if t.link.session && notify then 1 else 0
  {
  }

  /** A new session that waits for its turn, with nothing done. */
  predicate StartedOver(t: Transfer) {
    && t.link == Link(true, !t.role.remoteKnown, false, false, true, false, false)
    && t.role.acceptSession == !t.role.remoteKnown && t.role.upload == (t.progress.wanted == 0)
    && t.progress == Progress(-1, -1, 0, t.progress.wanted, t.progress.wanted)
    && !t.memory.autoRestart
  }

  /** A connection is recorded for good. It stays open for an upload, and for a download whose partial
      files are being hashed; without that the session is over, unless a chunk has earned a
      restart. */
  lemma ConnectionIsKeptIff(t: Transfer, ok: bool)
    requires t.link.session
    ensures var n := Next(t, Connected(ok));
            && n.memory.wasConnected && n.history.connections == t.history.connections + 1
            && (n.link.connected <==> t.role.upload || ok)
            && (t.role.upload || ok ==> n.link.session && !n.link.connecting && n.progress == t.progress)
            && (!t.role.upload && !ok ==> if t.memory.autoRestart then StartedOver(n) else n.link.finished && n.link.error)
  {
  }

  /** The user's restart always does, and keeps what was wanted and where the peer is. */
  lemma ResumeStartsOver(t: Transfer)
    ensures var n := Next(t, Resumed);
            && StartedOver(n) && n.history == t.history
            && n.progress.wanted == t.progress.wanted && n.role.remoteKnown == t.role.remoteKnown
            && n.memory.wasConnected == t.memory.wasConnected && n.memory.triedFallback == t.memory.triedFallback
  {
  }

  /** A posted retry starts the transfer over, for the peer to connect to, if and only if it is a
      download that is not under way, the peer can reach us, and the download was set up. */
  lemma RetryStartsOverIff(t: Transfer, reachable: bool, ready: bool)
    requires t.history.pending > 0
    ensures var n := Next(t, ConnectBackHandled(reachable, ready));
            && n.history.pending == t.history.pending - 1
            && (if !t.role.upload && (t.link.waitingOnLocal || t.link.finished) && reachable && ready
                then n.history.retried == t.history.retried + 1 && StartedOver(n) && n.role.acceptSession
                else n.history.declined == t.history.declined + 1 && n.link == t.link && n.progress == t.progress)
  {
  }

  // ----- a download, from its events alone

  predicate Receiving(after: seq<Event>) {
    forall e :: e in after ==> e.Header? || e.ChunkWritten?
  }

  /** What the events of a connection add up to: size and bytes of the current file, files begun,
      names crossed off the list, and whether anything was written. */
  datatype Tally = Tally(size: int, done: int, begun: nat, crossed: nat, wrote: bool)

  function TallyOf(after: seq<Event>): Tally {
    if after == [] then Tally(-1, -1, 0, 0, false)
    else
      var y := TallyOf(after[..|after| - 1]);
      match after[|after| - 1]
      case Header(size, start, previousListed) =>
        Tally(size, start, y.begun + 1, y.crossed + (if previousListed then 1 else 0), y.wrote)
      case ChunkWritten(n, listed) =>
        Tally(y.size, y.done + n, y.begun, y.crossed + (if y.done + n >= y.size && listed then 1 else 0), true)
      case _ => y
  }

  lemma {:induction false} ReceivingTallies(t: Transfer, after: seq<Event>)
    requires t.link.session && t.link.connected && !t.role.upload && Receiving(after)
    requires t.progress.size == t.progress.bytesDone == -1
    ensures var u, y := Run(t, after), TallyOf(after);
            && u.link == t.link && u.role == t.role && u.history.restarts == t.history.restarts
            && u.memory.autoRestart == (t.memory.autoRestart || y.wrote)
            && u.progress.size == y.size && u.progress.bytesDone == y.done
            && u.progress.index == t.progress.index + y.begun && u.progress.total == t.progress.total
            && u.progress.wanted == if y.crossed <= t.progress.wanted then t.progress.wanted - y.crossed else 0
    decreases |after|
  {
    if after != [] {
      assert after[|after| - 1] in after && forall e :: e in after[..|after| - 1] ==> e in after;
      ReceivingTallies(t, after[..|after| - 1]);
    }
  }

  lemma {:induction false} RunAppend(t: Transfer, a: seq<Event>, b: seq<Event>)
    ensures Run(t, a + b) == Run(Run(t, a), b)
    decreases |b|
  {
    hide Next;
    if b == [] {
      assert a + b == a;
    } else {
      RunAppend(t, a, b[..|b| - 1]);
      assert (a + b)[..|a + b| - 1] == a + b[..|b| - 1];
    }
  }

  function Opening(ok: bool): seq<Event> { [Resumed] + [Begin(ok)] + [Connected(true)] }

  lemma Opened(wanted: nat, remoteKnown: bool, ok: bool)
    requires wanted > 0
    ensures var t := Run(Fresh(wanted, remoteKnown), Opening(ok));
            && t.link == Link(true, !remoteKnown, false, true, false, false, false)
            && !t.role.upload && !t.memory.autoRestart && t.history.restarts == 0
            && t.progress == Progress(-1, -1, 0, wanted, wanted)
  {
    var f := Fresh(wanted, remoteKnown);
    var e := [Resumed] + [Begin(ok)];
    assert Opening(ok)[..2] == e && e[..1] == [Resumed] && e[..1][..0] == [];
    assert Run(f, []) == f;
    assert Run(f, [Resumed]) == Next(f, Resumed) by { assert [Resumed][..0] == []; }
    ResumeStartsOver(f);
  }

  /** Beginning a download that can connect starts to connect; one that has to be connected to only
      waits for that. */
  lemma BeginConnectsIff(wanted: nat, remoteKnown: bool, ok: bool)
    requires wanted > 0
    ensures var t := Run(Fresh(wanted, remoteKnown), [Resumed] + [Begin(ok)]);
            && !t.link.waitingOnLocal && t.link.accepting == !remoteKnown
            && (t.link.connecting <==> remoteKnown && ok)
  {
    var f := Fresh(wanted, remoteKnown);
    assert ([Resumed] + [Begin(ok)])[..1] == [Resumed] && [Resumed][..0] == [];
    assert Run(f, []) == f && Run(f, [Resumed]) == Next(f, Resumed);
    ResumeStartsOver(f);
  }

  /** A download that is begun, connected, given headers and chunks and then loses its connection
      starts over by itself if and only if something was written and the current file or the list
      is unfinished; it then asks for the files that were not crossed off. */
  lemma InterruptedDownloadRestartsIff(wanted: nat, remoteKnown: bool, ok: bool, after: seq<Event>)
    requires wanted > 0 && Receiving(after)
    ensures var n := Run(Fresh(wanted, remoteKnown), Opening(ok) + after + [Disconnected]);
            var y := TallyOf(after);
            if y.wrote && (y.done < y.size || y.begun < wanted)
            then n.history.restarts == 1 && StartedOver(n)
                 && n.progress.wanted == if y.crossed <= wanted then wanted - y.crossed else 0
            else n.history.restarts == 0 && n.link.finished && !n.link.session
  {
    hide Run, Next, TallyOf, Opening, Fresh;
    var f := Fresh(wanted, remoteKnown);
    Opened(wanted, remoteKnown, ok);
    var t := Run(f, Opening(ok));
    RunAppend(f, Opening(ok), after);
    ReceivingTallies(t, after);
    var u := Run(t, after);
    RunOneMore(f, Opening(ok) + after, Disconnected);
    LossRestartsIff(u);
    LossKeepsWanted(u);
  }

  lemma RunOneMore(t: Transfer, events: seq<Event>, e: Event)
    ensures Run(t, events + [e]) == Next(Run(t, events), e)
  {
    hide Next;
    assert (events + [e])[..|events|] == events;
  }

  lemma LossKeepsWanted(t: Transfer)
    ensures Next(t, Disconnected).progress.wanted == t.progress.wanted
  {
  }

  // ----- the object

  /** Its flags and counters are grouped into records, each of which is updated in place. */
  class ShareFileTransfer {
    var memory: Memory
    var role: Role
    var link: Link
    var progress: Progress
    ghost var history: History

    ghost function View(): Transfer
      reads this
    {
      Transfer(memory, role, link, progress, history)
    }

    constructor (wanted: nat, remoteKnown: bool)
      ensures View() == Fresh(wanted, remoteKnown)
    {
      memory, role := Memory(false, false, false), Role(false, false, remoteKnown);
      link := Link(false, false, false, false, true, false, false);
      progress, history := Progress(-1, -1, 0, 0, wanted), NOTHING_YET;
    }

    method InitSocketUploadSession()
      requires View() == Fresh(0, false)
      modifies this
      ensures View() == INBOUND
    {
      role := role.(acceptSession := false);
      link := link.(connected := true);
      role := role.(upload := true);
      progress := progress.(total := -1);
      link := link.(session := true);
    }

    /** FileTransferDisconnected, as far as this object is concerned. */
    method Notify()
      modifies this`history
      ensures history == Noticed(old(history))
    {
      history := history.(notices := history.notices + 1);
    }

    method InitConnectSession()
      requires role.remoteKnown
      modifies this
      ensures View() == Initialized(old(View()))
    {
      role := role.(acceptSession := false);
      progress := progress.(total := progress.wanted, bytesDone := -1, size := -1);
      role := role.(upload := progress.total == 0);
      link := link.(session := true);
    }

    method InitAcceptSession()
      requires !role.remoteKnown
      modifies this
      ensures View() == Initialized(old(View()))
    {
      link := link.(accepting := true);
      role := role.(acceptSession := true);
      progress := progress.(total := progress.wanted, bytesDone := -1, size := -1);
      role := role.(upload := progress.total == 0);
      link := link.(session := true);
    }

    method AbortSession(error: bool, forceNoRestart: bool, notifyWindow: bool)
      modifies this
      ensures View() == Stopped(old(View()), error, forceNoRestart, notifyWindow)
      decreases if error && !forceNoRestart && memory.autoRestart then 3 else 0
    {
      hide Restarted, Initialized;
      if !error || forceNoRestart {
        memory := memory.(autoRestart := false);
      }
      link := link.(connecting := false, accepting := false, connected := false, waitingOnLocal := false);
      progress := progress.(bytesDone := -1, size := -1);
      link := link.(error := error, finished := true);
      if link.session {
        if notifyWindow {
          Notify();
        }
        link := link.(session := false);
      }
      if memory.autoRestart {
        RestartByItself();
      }
    }

    method RestartByItself()
      modifies this
      ensures View() == RestartedByItself(old(View()))
      decreases 2
    {
      memory := memory.(autoRestart := false);
      RestartSession();
      history := history.(restarts := history.restarts + 1);
    }

    method RestartSession()
      modifies this
      ensures View() == Restarted(old(View()))
      decreases 1
    {
      hide Initialized;
      AbortSession(false, true, false);
      link := link.(finished := false, waitingOnLocal := true);
      progress := progress.(index := 0, total := progress.wanted);
      if role.remoteKnown {
        InitConnectSession();
      } else {
        InitAcceptSession();
      }
    }

    method OnConnected(ok: bool)
      requires link.session
      modifies this
      ensures View() == Joined(old(View()), ok)
    {
      hide Stopped;
      link := link.(connecting := false);
      link := link.(connected := true);
      memory := memory.(wasConnected := true);
      history := history.(connections := history.connections + 1);
      if !role.upload && !ok {
        AbortSession(true, false, true);
      }
    }

    method OnDisconnected()
      requires link.session
      modifies this
      ensures View() == Lost(old(View()))
    {
      hide RestartedByItself;
      history := history.(losses := history.losses + 1);
      link := link.(finished := true, connecting := false, connected := false, accepting := false,
                    waitingOnLocal := false);
      if progress.bytesDone < progress.size || progress.index < progress.total {
        link := link.(error := true);
      } else {
        memory := memory.(autoRestart := false);   // complete
      }
      var retryViaConnectBack :=
        link.error && !role.upload && !memory.wasConnected && !role.acceptSession && !memory.triedFallback;
      if retryViaConnectBack {
        memory := memory.(triedFallback := true);
        history := Posted(history);
      }
      if memory.autoRestart {
        history := history.(revived := history.revived + 1);
      } else if !retryViaConnectBack {
        history := history.(told := history.told + 1);
        Notify();
      }
      link := link.(session := false);
      if memory.autoRestart {
        RestartByItself();
      }
    }

    /** The file's write has succeeded. */
    method OnChunkWritten(numBytes: nat, listed: bool)
      requires link.session && link.connected && !role.upload
      modifies this
      ensures View() == Chunk(old(View()), numBytes, listed)
    {
      memory := memory.(autoRestart := true);
      progress := progress.(bytesDone := progress.bytesDone + numBytes);
      history := history.(chunks := history.chunks + 1);
      if progress.bytesDone >= progress.size && listed && progress.wanted > 0 {
        progress := progress.(wanted := progress.wanted - 1);
      }
    }
  }
}
