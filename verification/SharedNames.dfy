/** The tables of shared files: file-system nodes with their entries, and a reference-counted
    index of names derived from them. */
module SharedNames {
  import opened Option

  /** An entry: the directory it is in, and its name. */
  datatype EntryRef = EntryRef(directory: int, name: string)

  datatype Counted = Counted(entry: EntryRef, fileSize: int, count: nat)

  datatype Tables = Tables(nodes: map<int, EntryRef>, names: map<string, Counted>, connected: bool)

  const EMPTY := Tables(map[], map[], false)

  function Count(t: Tables, name: string): nat {
    if name in t.names then t.names[name].count else 0
  }

  function RefName(t: Tables, entry: EntryRef, fileSize: int): Tables {
    if entry.name in t.names then
      var c := t.names[entry.name];
      t.(names := t.names[entry.name := c.(count := c.count + 1)])
    else t.(names := t.names[entry.name := Counted(entry, fileSize, 1)])
  }

  function UnrefName(t: Tables, name: string): Tables {
    if name !in t.names then t
    else if t.names[name].count <= 1 then t.(names := t.names - {name})
    else t.(names := t.names[name := t.names[name].(count := t.names[name].count - 1)])
  }

  datatype Event =
    | Connect
    | Disconnect
    | Created(node: int, entry: EntryRef, fileSize: int)   // NodeCreated, or met by the scan
    | Removed(node: int)
    | Unwatch                                              // file sharing switched off

  function Next(t: Tables, e: Event): Tables {
    match e
    case Connect => t.(connected := true)
    case Disconnect => if t.connected then EMPTY else t
    case Created(node, entry, fileSize) =>
      var u := RefName(t, entry, fileSize);
      u.(nodes := u.nodes[node := entry])
    case Removed(node) =>
      if node !in t.nodes then t
      else
        var u := t.(nodes := t.nodes - {node});
        if t.connected then UnrefName(u, t.nodes[node].name) else u
    case Unwatch => t.(nodes := map[], names := map[])
  }

  function Run(events: seq<Event>): Tables {
    if events == [] then EMPTY else Next(Run(events[..|events| - 1]), events[|events| - 1])
  }

  /** The file an uploader serves under a name. */
  function FindSharedFile(t: Tables, name: string): Option<EntryRef> {
    if name in t.names then Some(t.names[name].entry) else None
  }

  // ----- names and the nodes that carry them

  function Carriers(nodes: map<int, EntryRef>, name: string): set<int> {
    set n | n in nodes && nodes[n].name == name
  }

  ghost predicate Covered(t: Tables) {
    && (forall name :: |Carriers(t.nodes, name)| <= Count(t, name))
    && (forall name :: name in t.names ==> t.names[name].count > 0)
  }

  ghost predicate Agreed(t: Tables) {
    && (forall name :: |Carriers(t.nodes, name)| == Count(t, name))
    && (forall name :: name in t.names ==> t.names[name].count > 0)
  }

  lemma CarriersAfterPut(nodes: map<int, EntryRef>, node: int, entry: EntryRef, name: string)
    ensures Carriers(nodes[node := entry], name)
         == if entry.name == name then Carriers(nodes, name) + {node} else Carriers(nodes, name) - {node}
  {
  }

  lemma CarriersAfterRemove(nodes: map<int, EntryRef>, node: int, name: string)
    ensures Carriers(nodes - {node}, name) == Carriers(nodes, name) - {node}
    ensures node in Carriers(nodes, name) <==> node in nodes && nodes[node].name == name
  {
  }

  lemma CreatedCounts(t: Tables, e: Event, name: string)
    requires e.Created?
    ensures Count(Next(t, e), name) == Count(t, name) + if name == e.entry.name then 1 else 0
    ensures |Carriers(Next(t, e).nodes, name)|
         == |Carriers(t.nodes, name)| + (if name == e.entry.name then 1 else 0)
            - if Carries(t, e.node, name) then 1 else 0
  {
    hide Carriers;
    CarriersAfterPut(t.nodes, e.node, e.entry, name);
    CarriersAfterRemove(t.nodes, e.node, name);
  }

  predicate Carries(t: Tables, node: int, name: string) {
    node in t.nodes && t.nodes[node].name == name
  }

  lemma RemovedCounts(t: Tables, e: Event, name: string)
    requires e.Removed? && e.node in t.nodes
    ensures |Carriers(Next(t, e).nodes, name)|
         == |Carriers(t.nodes, name)| - if Carries(t, e.node, name) then 1 else 0
    ensures Count(Next(t, e), name)
         == if Carries(t, e.node, name) && t.connected && Count(t, name) > 0
            then Count(t, name) - 1 else Count(t, name)
  {
    hide Carriers;
    CarriersAfterRemove(t.nodes, e.node, name);
  }

  lemma NextKeepsCovered(t: Tables, e: Event)
    requires Covered(t)
    ensures Covered(Next(t, e))
  {
    forall name
      ensures |Carriers(Next(t, e).nodes, name)| <= Count(Next(t, e), name)
    {
      if e.Created? {
        CreatedCounts(t, e, name);
      } else if e.Removed? && e.node in t.nodes {
        RemovedCounts(t, e, name);
      }
    }
  }

  lemma {:induction false} RunKeepsCovered(events: seq<Event>)
    ensures Covered(Run(events))
    decreases |events|
  {
    hide Covered;
    if events == [] {
      EmptyIsCovered();
    } else {
      RunKeepsCovered(events[..|events| - 1]);
      NextKeepsCovered(Run(events[..|events| - 1]), events[|events| - 1]);
    }
  }

  lemma EmptyIsCovered()
    ensures Covered(EMPTY)
  {
  }

  /** Every name's count is at least the number of nodes carrying it, so the name of a live node
      can always be looked up. */
  lemma LiveNamesAreFound(events: seq<Event>, node: int)
    requires node in Run(events).nodes
    ensures var t := Run(events);
            var name := t.nodes[node].name;
            && |Carriers(t.nodes, name)| <= Count(t, name)
            && FindSharedFile(t, name).Some?
  {
    var t := Run(events);
    RunKeepsCovered(events);
    assert node in Carriers(t.nodes, t.nodes[node].name);
  }

  // ----- exactly when the counts agree

  /** Insertions under a fresh node id, and removals while connected. */
  predicate Clean(t: Tables, e: Event) {
    && (e.Created? ==> e.node !in t.nodes)
    && (e.Removed? && e.node in t.nodes ==> t.connected)
  }

  /** From agreeing tables, a step keeps them agreeing if and only if it is clean. */
  lemma AgreementIsKeptIff(t: Tables, e: Event)
    requires Agreed(t)
    ensures Agreed(Next(t, e)) <==> Clean(t, e)
  {
    var u := Next(t, e);
    if e.Created? {
      forall name
        ensures |Carriers(u.nodes, name)| == Count(u, name) <==> !Carries(t, e.node, name)
      {
        CreatedCounts(t, e, name);
      }
      if e.node in t.nodes {
        assert Carries(t, e.node, t.nodes[e.node].name);
      }
    } else if e.Removed? && e.node in t.nodes {
      forall name
        ensures |Carriers(u.nodes, name)| == Count(u, name) <==> (Carries(t, e.node, name) ==> t.connected)
      {
        RemovedCounts(t, e, name);
        if Carries(t, e.node, name) {
          assert e.node in Carriers(t.nodes, name);
        }
      }
      assert Carries(t, e.node, t.nodes[e.node].name);
    }
  }

  // ----- exactly when a name leads to a file that is gone

  ghost predicate WellNamed(t: Tables) {
    forall name :: name in t.names ==> t.names[name].entry.name == name
  }

  predicate Carried(nodes: map<int, EntryRef>, entry: EntryRef) {
    exists n :: n in nodes && nodes[n] == entry
  }

  /** Every name leads to an entry that some node has. */
  ghost predicate Leads(t: Tables) {
    forall name :: name in t.names ==> Carried(t.nodes, t.names[name].entry)
  }

  /** The name that leads to entry p stays in the index. */
  predicate StaysNamed(t: Tables, e: Event, p: EntryRef) {
    && p.name in t.names && t.names[p.name].entry == p
    && (e.Removed? ==> !t.connected || t.names[p.name].count > 1)
  }

  /** The event takes the last node of an entry that a name goes on leading to: it is the entry
      recorded for its name, no other node has it, and the name stays. */
  predicate Strands(t: Tables, e: Event) {
    && (e.Removed? || e.Created?) && e.node in t.nodes
    && var p := t.nodes[e.node];
       && (e.Created? ==> e.entry != p)
       && StaysNamed(t, e, p)
       && !Carried(t.nodes - {e.node}, p)
  }

  lemma CarriedAfterPut(nodes: map<int, EntryRef>, node: int, put: EntryRef, entry: EntryRef)
    ensures Carried(nodes[node := put], entry) <==> entry == put || Carried(nodes - {node}, entry)
  {
    if entry == put {
      assert nodes[node := put][node] == entry;
    } else if Carried(nodes - {node}, entry) {
      var n :| n in nodes - {node} && (nodes - {node})[n] == entry;
      assert nodes[node := put][n] == entry;
    }
    if Carried(nodes[node := put], entry) && entry != put {
      var n :| n in nodes[node := put] && nodes[node := put][n] == entry;
      assert n in nodes - {node} && (nodes - {node})[n] == entry;
    }
  }

  lemma CarriedWithout(nodes: map<int, EntryRef>, node: int, entry: EntryRef)
    ensures Carried(nodes, entry) <==> Carried(nodes - {node}, entry) || (node in nodes && nodes[node] == entry)
  {
    if Carried(nodes, entry) {
      var n :| n in nodes && nodes[n] == entry;
      assert n == node || (n in nodes - {node} && (nodes - {node})[n] == entry);
    }
    if Carried(nodes - {node}, entry) {
      var n :| n in nodes - {node} && (nodes - {node})[n] == entry;
      assert nodes[n] == entry;
    }
  }

  lemma CreatedLeadsIff(t: Tables, e: Event)
    requires Leads(t) && WellNamed(t) && e.Created?
    ensures Leads(Next(t, e)) <==> !Strands(t, e)
  {
    hide Carried;
    var u := Next(t, e);
    forall name | name in u.names
      ensures Carried(u.nodes, u.names[name].entry)
              <==> !(Strands(t, e) && u.names[name].entry == t.nodes[e.node])
    {
      CarriedAfterPut(t.nodes, e.node, e.entry, u.names[name].entry);
      CarriedWithout(t.nodes, e.node, u.names[name].entry);
    }
    if Strands(t, e) {
      assert t.nodes[e.node].name in u.names;
    }
  }

  lemma RemovedLeadsIff(t: Tables, e: Event)
    requires Leads(t) && WellNamed(t) && e.Removed?
    ensures Leads(Next(t, e)) <==> !Strands(t, e)
  {
    hide Carried;
    var u := Next(t, e);
    forall name | name in u.names && e.node in t.nodes
      ensures Carried(u.nodes, u.names[name].entry)
              <==> !(Strands(t, e) && u.names[name].entry == t.nodes[e.node])
    {
      CarriedWithout(t.nodes, e.node, u.names[name].entry);
    }
    if Strands(t, e) {
      assert t.nodes[e.node].name in u.names;
    }
  }

  /** From tables in which every name leads to a live entry, a step keeps it so if and only if it
      does not strand a name. */
  lemma NamesKeepLeadingIff(t: Tables, e: Event)
    requires Leads(t) && WellNamed(t)
    ensures Leads(Next(t, e)) <==> !Strands(t, e)
    ensures WellNamed(Next(t, e))
  {
    hide Carried;
    match e
    case Created(_, _, _) => CreatedLeadsIff(t, e);
    case Removed(_) => RemovedLeadsIff(t, e);
    case _ =>
  }

  lemma {:induction false} RunIsWellNamed(events: seq<Event>)
    ensures WellNamed(Run(events))
    decreases |events|
  {
    if events != [] {
      RunIsWellNamed(events[..|events| - 1]);
    }
  }

  ghost predicate AlwaysLeads(events: seq<Event>) {
    Leads(Run(events)) && (events != [] ==> AlwaysLeads(events[..|events| - 1]))
  }

  ghost predicate NeverStrands(events: seq<Event>) {
    events != [] ==>
      && NeverStrands(events[..|events| - 1])
      && !Strands(Run(events[..|events| - 1]), events[|events| - 1])
  }

  /** Throughout a run every name leads to a live entry, exactly if no step strands a name. */
  lemma {:induction false} NamesAlwaysLeadIff(events: seq<Event>)
    ensures AlwaysLeads(events) <==> NeverStrands(events)
    decreases |events|
  {
    if events != [] {
      var before, e := events[..|events| - 1], events[|events| - 1];
      NamesAlwaysLeadIff(before);
      RunIsWellNamed(before);
      assert AlwaysLeads(before) ==> Leads(Run(before));
      hide Leads, Strands, Next, WellNamed;
      if Leads(Run(before)) {
        NamesKeepLeadingIff(Run(before), e);
      }
    }
  }

  /** A node id that is used again for another name strands the old one. */
  lemma ReusedNodeStrandsTheOldName(a: EntryRef, b: EntryRef)
    requires a.name != b.name
    ensures var t := Run([Connect] + [Created(1, a, 5)] + [Created(1, b, 7)]);
            FindSharedFile(t, a.name) == Some(a) && t.nodes == map[1 := b]
  {
    var e1 := [Connect];
    assert [] + e1 == e1;
    RunOne([], Connect);
    RunOne(e1, Created(1, a, 5));
    RunOne(e1 + [Created(1, a, 5)], Created(1, b, 7));
  }

  /** A name can outlive the file it leads to: with two files of one name, removing the first
      leaves the name pointing at it. */
  lemma NameCanLeadToARemovedFile(a: EntryRef, b: EntryRef)
    requires a.name == b.name && a != b
    ensures var t := Run([Connect] + [Created(1, a, 5)] + [Created(2, b, 7)] + [Removed(1)]);
            && FindSharedFile(t, b.name) == Some(a)
            && t.nodes == map[2 := b]
  {
    var e1 := [Connect];
    assert [] + e1 == e1;
    RunOne([], Connect);
    RunOne(e1, Created(1, a, 5));
    RunOne(e1 + [Created(1, a, 5)], Created(2, b, 7));
    RunOne(e1 + [Created(1, a, 5)] + [Created(2, b, 7)], Removed(1));
  }

  lemma RunOne(events: seq<Event>, e: Event)
    ensures Run(events + [e]) == Next(Run(events), e)
  {
    assert (events + [e])[..|events|] == events;
  }

  // ----- what the tables record, from the events alone

  /** The first file of a name decides which entry and size the name has, until it is counted out. */
  lemma FirstEntryStays(t: Tables, node: int, entry: EntryRef, fileSize: int)
    ensures var u := Next(t, Created(node, entry, fileSize));
            && node in u.nodes && u.nodes[node] == entry && u.connected == t.connected
            && (forall n :: n in t.nodes && n != node ==> n in u.nodes && u.nodes[n] == t.nodes[n])
            && (entry.name !in t.names ==> u.names == t.names[entry.name := Counted(entry, fileSize, 1)])
            && (entry.name in t.names ==>
                  var c := t.names[entry.name];
                  u.names == t.names[entry.name := Counted(c.entry, c.fileSize, c.count + 1)])
  {
  }

  /** A node that goes takes its entry with it, and its name when no other counts for it. */
  lemma LastOneTakesTheName(t: Tables, node: int)
    requires node in t.nodes
    ensures var u, name := Next(t, Removed(node)), t.nodes[node].name;
            && node !in u.nodes && (forall n :: n in t.nodes && n != node ==> n in u.nodes && u.nodes[n] == t.nodes[n])
            && (name in u.names <==> name in t.names && (!t.connected || t.names[name].count > 1))
            && (forall other :: other != name ==> (other in u.names <==> other in t.names))
            && (forall other :: other in u.names ==>
                  u.names[other].entry == t.names[other].entry && u.names[other].fileSize == t.names[other].fileSize)
  {
  }

  /** After file sharing was switched off, and after a connection ended, nothing is shared: no name
      is found and no node is known, whatever happened before; the connection ends only in the
      second case. */
  lemma NothingIsSharedAfter(events: seq<Event>, name: string)
    ensures var t := Run(events + [Unwatch]);
            t.nodes == map[] && FindSharedFile(t, name).None? && t.connected == Run(events).connected
    ensures Run(events).connected ==>
              var t := Run(events + [Disconnect]);
              t.nodes == map[] && FindSharedFile(t, name).None? && !t.connected
    ensures Run(events + [Connect]).connected && Run(events + [Connect]).nodes == Run(events).nodes
    ensures forall n :: FindSharedFile(Run(events + [Connect]), n) == FindSharedFile(Run(events), n)
  {
    RunOne(events, Unwatch);
    RunOne(events, Disconnect);
    RunOne(events, Connect);
    hide Run;
  }

  // ----- the object

  class SharedFiles {
    var nodeToEntry: map<int, EntryRef>
    var nameToEntry: map<string, Counted>
    var connected: bool

    ghost function View(): Tables
      reads this
    {
      Tables(nodeToEntry, nameToEntry, connected)
    }

    constructor ()
      ensures View() == EMPTY
    {
      nodeToEntry, nameToEntry, connected := map[], map[], false;
    }

    method RefFilename(entry: EntryRef, fileSize: int)
      modifies this`nameToEntry
      ensures View() == RefName(old(View()), entry, fileSize)
    {
      if entry.name in nameToEntry {
        var r := nameToEntry[entry.name];
        nameToEntry := nameToEntry[entry.name := r.(count := r.count + 1)];
      } else {
        nameToEntry := nameToEntry[entry.name := Counted(entry, fileSize, 1)];
      }
    }

    method UnrefFilename(name: string)
      modifies this`nameToEntry
      ensures View() == UnrefName(old(View()), name)
    {
      if name in nameToEntry {
        var count: int := nameToEntry[name].count - 1;
        if count <= 0 {
          nameToEntry := nameToEntry - {name};
        } else {
          nameToEntry := nameToEntry[name := nameToEntry[name].(count := count)];
        }
      }
    }

    method NodeCreated(node: int, entry: EntryRef, fileSize: int)
      modifies this`nameToEntry, this`nodeToEntry
      ensures View() == Next(old(View()), Created(node, entry, fileSize))
    {
      RefFilename(entry, fileSize);
      nodeToEntry := nodeToEntry[node := entry];
    }

    method NodeRemoved(node: int)
      modifies this`nameToEntry, this`nodeToEntry
      ensures View() == Next(old(View()), Removed(node))
    {
      if node in nodeToEntry {
        var entry := nodeToEntry[node];
        nodeToEntry := nodeToEntry - {node};
        if connected {
          UnrefFilename(entry.name);
        }
      }
    }

    method UnwatchAllDirs()
      modifies this`nameToEntry, this`nodeToEntry
      ensures View() == Next(old(View()), Unwatch)
    {
      nodeToEntry, nameToEntry := map[], map[];
    }

    method DisconnectFromServer()
      modifies this
      ensures View() == Next(old(View()), Disconnect)
    {
      if connected {
        connected := false;
        UnwatchAllDirs();
      }
    }
  }
}
