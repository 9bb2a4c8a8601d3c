/** The uploading ShareFileTransfer: fields updated in place, chunks munged and checksummed in a
    scratch buffer, proved to be the upload of UploadSpec. */
module Uploader {
  import opened Machine
  import opened Payload
  import opened Option
  import opened UploadSpec
  import UploadProofs

  class Uploader {
    var fileSet: seq<Request>
    var listed: bool
    var fileSetIter: nat
    var currentFile: Option<seq<Byte>>   // None: unset, or not readable
    var currentFileBytesDone: int
    var currentFileSize: int
    var currentFileStartOffset: nat
    var currentFileMaxBytes: int
    var isWaitingOnLocal: bool
    var uploadWaitingForSendToFinish: bool
    var mungeMode: int
    var connected: bool
    var drainsRequested: nat
    var sent: seq<Message>

    ghost predicate Valid()
      reads this
    {
      Indexed(View()) && (currentFileBytesDone >= 0 ==> currentFile == fileSet[fileSetIter - 1].content)
    }

    ghost function View(): Upload
      reads this
    {
      Upload(fileSet, listed, fileSetIter, currentFileBytesDone, currentFileSize, currentFileStartOffset,
             currentFileMaxBytes, isWaitingOnLocal, uploadWaitingForSendToFinish, mungeMode, connected,
             drainsRequested, sent)
    }

    constructor (mungeMode: int)
      ensures Valid() && View() == Fresh(mungeMode)
    {
      fileSet, listed, fileSetIter, currentFile := [], false, 0, None;
      currentFileBytesDone, currentFileSize, currentFileStartOffset, currentFileMaxBytes := -1, -1, 0, -1;
      isWaitingOnLocal, uploadWaitingForSendToFinish := true, false;
      this.mungeMode, connected, drainsRequested, sent := mungeMode, true, 0, [];
    }

    method AbortSession()
      modifies this`isWaitingOnLocal, this`currentFileBytesDone, this`currentFileSize, this`connected
      ensures View() == Aborted(old(View()))
    {
      isWaitingOnLocal := false;
      currentFileBytesDone, currentFileSize := -1, -1;
      connected := false;
    }

    /** Reads the next chunk of the current file into the scratch buffer. */
    method ReadChunk(scratchBuffer: array<Byte>, toRead: nat, delivered: int) returns (numBytes: int)
      requires Valid() && 0 <= currentFileBytesDone && toRead <= scratchBuffer.Length
      modifies scratchBuffer
      ensures numBytes == ReadCount(currentFile, currentFileBytesDone, toRead, delivered)
      ensures numBytes > 0 ==>
        scratchBuffer[..numBytes] == currentFile.value[currentFileBytesDone..currentFileBytesDone + numBytes]
    {
      numBytes := ReadCount(currentFile, currentFileBytesDone, toRead, delivered);
      forall i | 0 <= i < numBytes {
        scratchBuffer[i] := currentFile.value[currentFileBytesDone + i];
      }
    }

    /** Munges if asked to, and adds the checksum of what is sent. */
    method BuildData(scratchBuffer: array<Byte>, numBytes: nat) returns (msg: Message)
      requires numBytes <= scratchBuffer.Length
      modifies scratchBuffer
      ensures msg == DataMessage(old(scratchBuffer[..numBytes]), mungeMode)
    {
      var mm := MUNGE_MODE_NONE;
      if mungeMode == MUNGE_MODE_XOR {
        MungeInPlace(scratchBuffer, numBytes);
        mm := mungeMode;
      }
      var chk := CalculateChecksum(scratchBuffer, numBytes);
      msg := FileData(scratchBuffer[..numBytes], mm, Some(chk));
    }

    method SendChunk(delivered: int) returns (again: bool)
      requires Valid() && connected && !isWaitingOnLocal && currentFileBytesDone >= 0
      requires !(currentFileMaxBytes >= 0 && currentFileBytesDone - currentFileStartOffset >= currentFileMaxBytes)
      modifies this
      ensures Valid() && (View(), again) == Aux(old(View()), delivered)
    {
      hide DataMessage, ReadCount;
      var scratchBuffer := new Byte[CHUNK_SIZE];
      var toRead := CHUNK_SIZE;
      if currentFileMaxBytes >= 0 {
        var remaining := currentFileMaxBytes - (currentFileBytesDone - currentFileStartOffset);
        if toRead > remaining {
          toRead := remaining;
        }
      }
      var numBytes := ReadChunk(scratchBuffer, toRead, delivered);
      if numBytes > 0 {
        var msg := BuildData(scratchBuffer, numBytes);
        sent := sent + [msg];
        drainsRequested := drainsRequested + 1;
        currentFileBytesDone := currentFileBytesDone + numBytes;
        return false;
      }
      if numBytes == 0 {
        // end of file
        currentFileBytesDone, currentFileSize := -1, -1;
        return true;
      }
      AbortSession();
      return false;
    }

    /** Takes the next file from the send list, or waits for the last bytes to leave. */
    method NextFile() returns (again: bool)
      requires Valid() && connected && !isWaitingOnLocal && currentFileBytesDone < 0
      modifies this
      ensures Valid() && forall delivered :: (View(), again) == Aux(old(View()), delivered)
    {
      if fileSetIter < |fileSet| {
        var value := fileSet[fileSetIter];
        fileSetIter := fileSetIter + 1;
        currentFileBytesDone := value.offset;
        currentFileStartOffset := value.offset;
        currentFileMaxBytes := value.maxBytes;
        currentFile := value.content;
        if currentFile.Some? {
          currentFileSize := |currentFile.value|;
          sent := sent + [Header(fileSetIter - 1, currentFileSize, currentFileBytesDone,
                                 if currentFileMaxBytes >= 0 then currentFileMaxBytes else -1)];
          return true;
        }
      } else {
        uploadWaitingForSendToFinish := true;
        drainsRequested := drainsRequested + 1;
      }
      return false;
    }

    method DoUploadAux(delivered: int) returns (again: bool)
      requires Valid()
      modifies this
      ensures Valid() && (View(), again) == Aux(old(View()), delivered)
    {
      hide DataMessage, ReadCount;
      if isWaitingOnLocal {
        return false;   // paused
      }
      if connected {
        if currentFileBytesDone >= 0 {
          if currentFileMaxBytes >= 0 && currentFileBytesDone - currentFileStartOffset >= currentFileMaxBytes {
            currentFileBytesDone, currentFileSize := -1, -1;
            return true;   // the whole range was sent
          }
          again := SendChunk(delivered);
          return;
        }
        again := NextFile();
        return;
      }
      AbortSession();
      return false;
    }

    /** Calls DoUploadAux until it says to stop; it always does. */
    method DoUpload(device: nat -> int)
      requires Valid()
      modifies this
      ensures Valid() && View() == UploadSpec.DoUpload(old(View()), device, 0)
    {
      hide Aux;
      var k := 0;
      var again := true;
      while again
        invariant Valid()
        invariant UploadSpec.DoUpload(old(View()), device, 0)
               == if again then UploadSpec.DoUpload(View(), device, k) else View()
        decreases again, Measure(View())
      {
        AuxMakesProgress(View(), device(k));
        again := DoUploadAux(device(k));
        k := k + 1;
      }
    }

    /** The file list has been verified. */
    method OnListed(files: seq<Request>, device: nat -> int)
      requires Valid()
      modifies this
      ensures Valid() && View() == Next(old(View()), Start(files, device))
    {
      hide Aux, UploadSpec.DoUpload;
      if listed || !connected {
        return;
      }
      if files == [] {
        AbortSession();   // nothing was asked for
      } else {
        fileSet, listed, fileSetIter := files, true, 0;
        currentFileBytesDone, currentFileSize := -1, -1;
        DoUpload(device);
      }
    }

    method OnDrained(device: nat -> int)
      requires Valid()
      modifies this
      ensures Valid() && View() == Next(old(View()), Drained(device))
    {
      hide Aux, UploadSpec.DoUpload;
      if drainsRequested > 0 && connected {
        drainsRequested := drainsRequested - 1;
        if uploadWaitingForSendToFinish {
          AbortSession();
        } else {
          DoUpload(device);
        }
      }
    }

    method BeginTransfer(enabled: bool, device: nat -> int)
      requires Valid()
      modifies this
      ensures Valid() && View() == Next(old(View()), Begin(enabled, device))
    {
      hide Aux, UploadSpec.DoUpload;
      if enabled && isWaitingOnLocal {
        isWaitingOnLocal := false;
        if connected && listed {
          DoUpload(device);
        }
      }
    }

    /** One event of the session. */
    method Handle(e: Event)
      requires Valid()
      modifies this
      ensures Valid() && View() == Next(old(View()), e)
    {
      hide Aux, UploadSpec.DoUpload;
      match e {
        case Start(files, device) => OnListed(files, device);
        case Drained(device) => OnDrained(device);
        case Pause => isWaitingOnLocal := true;
        case Begin(enabled, device) => BeginTransfer(enabled, device);
      }
    }

    /** The rest of the current file and all of the files after it. */
    method GetNumBytesLeftToUpload() returns (count: nat)
      requires Valid()
      ensures count == UploadProofs.BytesLeft(View())
    {
      count := 0;
      if currentFileBytesDone < currentFileSize {
        count := count + (currentFileSize - currentFileBytesDone);
      }
      var iter := fileSetIter;
      while iter < |fileSet|
        invariant fileSetIter <= iter <= |fileSet|
        invariant count + UploadProofs.SizesFrom(fileSet, iter) == UploadProofs.BytesLeft(View())
      {
        var fs := if fileSet[iter].content.Some? then |fileSet[iter].content.value| else -1;
        if fs > 0 {
          count := count + fs;
        }
        iter := iter + 1;
      }
    }

    method HandleAll(events: seq<Event>)
      requires Valid()
      modifies this
      ensures Valid() && View() == Run(old(View()), events)
    {
      hide Next;
      for i := 0 to |events|
        invariant Valid() && View() == Run(old(View()), events[..i])
      {
        assert events[..i + 1][..i] == events[..i];
        Handle(events[i]);
      }
      assert events[..|events|] == events;
    }
  }

  /** A session is the abstract run, and its messages always decode to the requested ranges. */
  method RunSession(mungeMode: int, events: seq<Event>) returns (u: Uploader)
    ensures fresh(u) && u.Valid() && u.View() == Run(Fresh(mungeMode), events)
    ensures UploadProofs.SentPrefix(u.fileSet, u.sent)
  {
    u := new Uploader(mungeMode);
    u.HandleAll(events);
    UploadProofs.PayloadsAreRequestedRanges(mungeMode, events);
  }
}
