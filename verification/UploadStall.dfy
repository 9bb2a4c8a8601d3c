/** Exactly when an upload can come to a halt: a requested file that cannot be opened leaves it
    connected, with nothing to wake it. */
module UploadStall {
  import opened Machine
  import opened Option
  import opened UploadSpec
  import UploadProofs

  ghost predicate AllOpen(files: seq<Request>) {
    forall i :: 0 <= i < |files| ==> files[i].content.Some?
  }

  /** Connected and not paused, with the files known, and no drain to come. */
  predicate Stalled(u: Upload) {
    u.connected && u.listed && !u.waitingOnLocal && u.drains == 0
  }

  /** A device that delivers whatever is asked of it. */
  function Plenty(k: nat): int { CHUNK_SIZE }

  // ----- on the way to file i, the first that cannot be opened

  ghost predicate Going(u: Upload, i: nat) {
    && Indexed(u) && u.connected && u.listed && !u.waitingOnLocal && !u.finishing
    && u.next <= i < |u.files| && u.files[i].content.None? && AllOpen(u.files[..i])
  }

  /** Bytes left in the current file. */
  function Rest(u: Upload): nat
    requires Indexed(u)
  {
    if u.bytesDone < 0 || u.files[u.next - 1].content.None? then 0
    else
      var size := |u.files[u.next - 1].content.value|;
      if u.bytesDone < size then size - u.bytesDone else 0
  }

  ghost predicate Nearer(v: Upload, u: Upload)
    requires Indexed(u) && Indexed(v)
  {
    v.next > u.next || (v.next == u.next && Rest(v) < Rest(u))
  }

  ghost predicate Reached(u: Upload, v: Upload, i: nat)
    requires Indexed(u)
  {
    v.files == u.files && (Stalled(v) || (Going(v, i) && v.drains == 1 && Nearer(v, u)))
  }

  lemma AuxGoes(u: Upload, i: nat)
    requires Going(u, i) && u.drains == 0
    ensures var (v, again) := Aux(u, CHUNK_SIZE);
            if again then
              && Going(v, i) && v.files == u.files && v.drains == 0
              && (v.next > u.next || (v.next == u.next && Rest(v) == 0))
            else Reached(u, v, i)
  {
    hide DataMessage, HeaderFor;
    assert u.bytesDone >= 0 ==> u.files[..i][u.next - 1].content.Some?;
    assert u.next < i ==> u.files[..i][u.next].content.Some?;
  }

  lemma {:induction false} DoUploadGoes(u: Upload, i: nat, k: nat)
    requires Going(u, i) && u.drains == 0
    ensures Reached(u, DoUpload(u, Plenty, k), i)
    decreases Measure(u)
  {
    hide Aux;
    AuxGoes(u, i);
    AuxMakesProgress(u, Plenty(k));
    var (v, again) := Aux(u, Plenty(k));
    if again {
      DoUploadGoes(v, i, k + 1);
    }
  }

  lemma {:induction false} DrainUntilStalled(munge: int, events: seq<Event>, i: nat) returns (longer: seq<Event>)
    requires var u := Run(Fresh(munge), events); Going(u, i) && u.drains == 1
    ensures var u, v := Run(Fresh(munge), events), Run(Fresh(munge), longer); v.files == u.files && Stalled(v)
    decreases i - Run(Fresh(munge), events).next, Rest(Run(Fresh(munge), events))
  {
    var u := Run(Fresh(munge), events);
    longer := events + [Drained(Plenty)];
    assert longer[..|events|] == events;
    DoUploadGoes(u.(drains := 0), i, 0);
    hide DoUpload;
    if !Stalled(Run(Fresh(munge), longer)) {
      longer := DrainUntilStalled(munge, longer, i);
    }
  }

  lemma StartAndBegin(munge: int, files: seq<Request>) returns (events: seq<Event>)
    requires files != []
    ensures Run(Fresh(munge), events)
         == DoUpload(Fresh(munge).(files := files, listed := true, waitingOnLocal := false), Plenty, 0)
  {
    events := [Start(files, Plenty), Begin(true, Plenty)];
    assert events[..1] == [Start(files, Plenty)] && events[..1][..0] == [];
    var u := Fresh(munge).(files := files, listed := true);
    assert Run(Fresh(munge), []) == Fresh(munge);
    assert Run(Fresh(munge), events[..1]) == DoUpload(u, Plenty, 0) == u;
  }

  lemma {:induction false} FirstUnopened(files: seq<Request>) returns (i: nat)
    requires !AllOpen(files)
    ensures i < |files| && files[i].content.None? && AllOpen(files[..i])
  {
    var n := |files| - 1;
    if AllOpen(files[..n]) {
      i := n;
    } else {
      i := FirstUnopened(files[..n]);
      assert files[..n][..i] == files[..i];
    }
  }

  /** With a file that cannot be opened among those asked for, some run stalls. */
  lemma UnopenedFileStalls(munge: int, files: seq<Request>) returns (events: seq<Event>)
    requires !AllOpen(files)
    ensures Run(Fresh(munge), events).files == files && Stalled(Run(Fresh(munge), events))
  {
    var i := FirstUnopened(files);
    events := StartAndBegin(munge, files);
    var u := Fresh(munge).(files := files, listed := true, waitingOnLocal := false);
    DoUploadGoes(u, i, 0);
    if !Stalled(Run(Fresh(munge), events)) {
      events := DrainUntilStalled(munge, events, i);
    }
  }

  /** An upload of these files never stalls, in any run, if and only if all of them open. */
  lemma NeverStallsIff(munge: int, files: seq<Request>)
    requires files != []
    ensures AllOpen(files) <==>
            (forall events :: Run(Fresh(munge), events).files == files ==> !Stalled(Run(Fresh(munge), events)))
  {
    hide Run;
    if AllOpen(files) {
      forall events | Run(Fresh(munge), events).files == files
        ensures !Stalled(Run(Fresh(munge), events))
      {
        UploadProofs.UploadStaysAwake(munge, events);
      }
    } else {
      var events := UnopenedFileStalls(munge, files);
    }
  }
}
