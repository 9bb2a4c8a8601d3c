# HiShare, modelled and verified

A Dafny model of the parts of HiShare (a BeShare client for Haiku, with the MUSCLE library it
carries) that have the most state and the most at stake, and proofs of what they keep. `dafny verify
dfyconfig.toml` checks everything.

| files | what they model |
|---|---|
| `AsyncSpec`, `AsyncSafety`, `AsyncDistance`, `AsyncOutcome`, `AsyncTurns`, `AsyncExit`, `AsyncDataIO` | the two threads of `AsyncDataIO`: bytes through a socket, commands through a locked queue, spliced together again |
| `Md5Spec`, `Md5Transform`, `Md5Context`, `Md5Vectors`, `HashFile` | RFC 1321 as a reference, checked against its listed digests; the unrolled transform, the incremental context, and the hashing of file slices with its cache |
| `Payload`, `UploadSpec`, `UploadProofs`, `UploadMessages`, `UploadStall`, `Uploader`, `Resume`, `Download` | a transfer between two peers: resume request and grant, the upload cursor, chunks that are munged and summed, and what is saved |
| `Lifecycle` | the life of one transfer: restarts, the connect-back retry, notices |
| `LowPriority`, `SharedNames` | the paced sender and the tables of shared files of `ShareNetClient` |
| `PortMapping`, `Ipv4Text` | the port mapper's loop, and its printing and scanning of addresses |
| `Machine`, `Option` | bytes, and values that may be absent |
| `Catkeys`, `LabelledUrls` | string escapes of the translation catalogues, and labelled links |

Code that changes state is modelled by classes and loops over arrays, sequences and maps. Each such
method is proved equal to a step of a specification written as functions, and the properties of whole
runs are proved about those functions. A sequence of events is any order in which the outside world
and the threads can act: how much a read, write, send or receive transfers, what a device delivers,
whether a request succeeds and what time it is are parameters of the events. An event that is not
possible has no effect, so a statement about all sequences of events is a statement about all runs.

## What the code does not do

These are facts about the code, each with a lemma that exhibits it or gives its exact condition.

- `AsyncDataIO` keeps the distance to the next command in 32 bits (line 160). That is safe if and only
  if the socket between the threads holds fewer than 2^32 - 4096 bytes (`AsyncDistance.TraceIsPrefixIff`);
  beyond that an earlier command is run again (`AsyncDistance.WrappedDistanceRunsACommandTwice`).
- Over a file, whose one position serves reads and writes, the thread's reading ahead moves what is
  written next (`AsyncExit.WriteLandsBehindWhatWasRead`). The device follows its trace if and only if
  nothing is read from it (`AsyncOutcome.DeviceFollowsTraceIff`).
- Commands issued after the last byte may never be executed when the main thread closes its end, although
  the comment in `Write` promises that commands are spliced back in. Calls are always executed in full if
  and only if they end with a write or contain none (`AsyncExit.AllCallsAreExecutedIff`). No byte is lost
  (`AsyncExit.ExitWhenDoneLosesNoByte`).
- A partial hash compares only the end of the partial file; a different beginning is kept
  (`Resume.UncheckedBeginningSurvives`). The saved file is exact if and only if the unchecked beginnings
  agree (`Resume.ResumeIsCorrect`).
- If the local file's size changes between request and header, the saved file lacks the beginning that
  was granted (`Resume.ChangedLocalFileLosesTheBeginning`).
- A requested file that the uploader cannot open leaves the upload without a drain to wake it. An upload
  never halts if and only if all its files open (`UploadStall.NeverStallsIff`).
- The chunk checksum catches every change of one byte, but not two bytes that trade places at a distance
  that is a multiple of 24, and those are all (`Payload.SwapIsUnnoticedIff`).
- An edit that keeps a file's size and 32-bit modification time is answered with the old digest
  (`HashFile.HitAfterEditIsRightIff`).
- A refused drain request leaves the low-priority queue with no drain to come, if and only if more waits
  than one chunk takes (`LowPriority.QueueIsNeverStrandedIff`); the next message sent wakes it.
- A shared name can lead to a file that is gone, exactly when the last node of the recorded entry goes and
  the name stays (`SharedNames.NamesAlwaysLeadIff`).
- A lease of 30 s or less is renewed too late (`PortMapping.RenewalBeforeExpiryIff`).

## Model

| member | source | states |
|---|---|---|
| Md5Transform.RewrittenCoreFunction | source/hishare/md5.cpp:143-149 | The optimised F1 to F4 equal the functions F, G, H and I of section 3.4 of RFC 1321 on all words. |
| Md5Transform.StepIsOperation | source/hishare/md5.cpp:151-152 | One step, in any rotation of the four registers, is operation i of section 3.4, given that its word, constant and shift are those of row i. |
| Md5Transform.Round1 | source/hishare/md5.cpp:169-184 | The first 16 unrolled steps are operations 0 to 15 of the table-driven form; every data index, constant and shift is checked against the formulas and the sine table. |
| Md5Transform.Round2 | source/hishare/md5.cpp:186-201 | The same for operations 16 to 31. |
| Md5Transform.Round3 | source/hishare/md5.cpp:203-218 | The same for operations 32 to 47. |
| Md5Transform.Round4 | source/hishare/md5.cpp:220-235 | The same for operations 48 to 63. |
| Md5Transform.Transform | source/hishare/md5.cpp:159-241 | For every chaining value and block, the array ends up as the RFC 1321 compression of what it held. |
| Md5Context.CompressAllAppend | source/hishare/md5.cpp:95-101 | The fold over full blocks may be continued block by block. |
| Md5Context.LengthField | source/hishare/md5.cpp:133-135 | The two words of the length field, with the bits carried from the low counter word, are the message length in bits modulo 2^64, low-order byte first. |
| Md5Context.CountAdvances | source/hishare/md5.cpp:77-79 | The two-word counter with its carry counts bytes modulo 2^64. |
| Md5Context.CountResidue | source/hishare/md5.cpp:81-81 | The low six bits of the counter are the number of pending bytes, for any message length. |
| Md5Context.PaddedInOneBlock | source/hishare/md5.cpp:117-131 | With fewer than 56 pending bytes the padding that Final builds in one block is the RFC padding. |
| Md5Context.PaddedInTwoBlocks | source/hishare/md5.cpp:123-130 | With 56 or more, the two blocks that Final builds are the RFC padding. |
| Md5Context.Context.constructor | source/hishare/md5.cpp:55-68 | A fresh context has absorbed the empty message. |
| Md5Context.Context.Init | source/hishare/md5.cpp:55-68 | A reset context has absorbed the empty message, whatever it held. |
| Md5Context.Context.TransformBlocks | source/hishare/md5.cpp:94-104 | Whole 64-byte blocks are absorbed in order; fewer than 64 bytes are left over. |
| Md5Context.Context.Update | source/hishare/md5.cpp:74-105 | Whatever is pending and however long the data, the absorbed message is the old one with the data appended; the invariant ties registers, pending block and counter to that message. |
| Md5Context.Context.Final | source/hishare/md5.cpp:111-141 | The result is the RFC 1321 digest of the absorbed message, in both padding cases, and the context is zeroed. |
| Md5Context.DigestOfPieces | source/hishare/md5.cpp:55-141 | For every message and every way of cutting it into Update calls, the digest is that of the joined pieces. |
| Md5Vectors.DigestOfEmpty | source/hishare/md5.cpp:55-241 | The digest of the empty message is the value that section A.5 of RFC 1321 lists; every register after every operation is a literal. |
| Md5Vectors.DigestOfAbc | source/hishare/md5.cpp:55-241 | So is that of "abc". |
| Md5Vectors.DigestOfAlphanumeric | source/hishare/md5.cpp:55-241 | So is that of the 62 letters and digits, which fill two blocks. |
| Md5Vectors.KnownDigests | source/hishare/md5.cpp:55-141 | A context fed with these messages, two of them in pieces, yields the three listed digests. |
| HashFile.FileNode.HashSlice | source/hishare/md5.cpp:300-327 | For every pattern of short reads and stops: success yields the digest and length of exactly the slice; reads that always make progress and no stop give success. |
| HashFile.FileNode.HashFileMD5 | source/hishare/md5.cpp:245-339 | Success yields the MD5 and length of the first len bytes, of len bytes from offset, of the last min(offset, size) bytes, or of the whole file; it fails for a slice past the end; and only a whole-file digest enters the cache. |
| HashFile.CacheComesFromSomeVersion | source/hishare/md5.cpp:329-337 | Over any history the cached record is that of some version the file had. |
| HashFile.HitsAgreeWithRecomputing | source/hishare/md5.cpp:254-275 | While (size, 32-bit time) determines the content, a cache hit returns what hashing again would. |
| HashFile.HitAfterEditIsRightIff | source/hishare/md5.cpp:254-275 | After hashing and an edit, hashing again answers right if and only if size or 32-bit time changed, or the digests agree. |
| HashFile.UnnoticedEditIsAnsweredFromTheCache | source/hishare/md5.cpp:258-273 | An edit that keeps size and time (modulo 2^32) is answered with the old digest. |
| AsyncSafety.MergeAppendBytes | source/muscle/dataio/AsyncDataIO.cpp:20-26 | Bytes sent later go to the end of the stream that is still to be re-spliced. |
| AsyncSafety.MergeAppendCommand | source/muscle/dataio/AsyncDataIO.cpp:28-65 | A command tagged with the byte count goes to the end of that stream. |
| AsyncSafety.MergeTakeBytes | source/muscle/dataio/AsyncDataIO.cpp:178-190 | Bytes that stop short of the next command are the head of the stream. |
| AsyncSafety.CheckKeeps | source/muscle/dataio/AsyncDataIO.cpp:149-164 | The locked check keeps the invariant unless the 32-bit distance reads a positive distance as 0. |
| AsyncSafety.SlaveWriteKeeps | source/muscle/dataio/AsyncDataIO.cpp:176-190 | A partial write keeps it: the eligible bytes were buffered before the check. |
| AsyncSafety.ReceiveKeeps | source/muscle/dataio/AsyncDataIO.cpp:194-202 | Receiving after the write keeps it. |
| AsyncSafety.StepKeeps | source/muscle/dataio/AsyncDataIO.cpp:115-238 | Every atomic step of either thread keeps the invariant that ties calls, socket, buffers, queue and trace together. |
| AsyncSafety.TraceIsPrefix | source/muscle/dataio/AsyncDataIO.cpp:149-236 | In every interleaving, with any partial sends, receives, reads and writes and fewer than 2^32 bytes under way, the slave's trace is a prefix of what the main thread issued, and a command runs exactly at its recorded byte position. |
| AsyncSafety.BytesAreConserved | source/muscle/dataio/AsyncDataIO.cpp:176-202 | What was issued is exactly the trace, then the command about to run, then the merge of buffered and travelling bytes with the queued commands. |
| AsyncSafety.ReverseStreamIsExact | source/muscle/dataio/AsyncDataIO.cpp:99-111 | With no assumption: bytes delivered, then bytes buffered, are what came from the slave and WriteToMainThread, in order; 0 <= readIdx <= numValid <= 4096 for both buffers. |
| AsyncSafety.PulseTakesWhatFits | source/muscle/dataio/AsyncDataIO.cpp:241-251 | A batch that fits is taken whole and nothing else; one that does not is refused, or, when a part will do, fills the 4096 bytes with its beginning. |
| AsyncSafety.PulseOfARun | source/muscle/dataio/AsyncDataIO.cpp:241-251 | So in every reachable state at the place where the thread calls it. |
| AsyncSafety.SuppliedBytesArrive | source/muscle/dataio/AsyncDataIO.cpp:99-111 | While every batch fits, what reached the main thread and what is buffered for it are exactly what the slave and WriteToMainThread supplied, in order. |
| AsyncSafety.ReceivingFirstWouldBeUnsafe | source/muscle/dataio/AsyncDataIO.cpp:194-202 | The order of write and receive matters: were the receive first, a reachable turn would write a byte ahead of a flush issued before it. |
| AsyncDistance.CheckAndRunIsSafeIff | source/muscle/dataio/AsyncDataIO.cpp:155-160 | From a good state, check and the command after it leave a prefix exactly when it is not the case that the distance is a positive multiple of 2^32 with an earlier command still in curCmd. |
| AsyncDistance.RunTallies | source/muscle/dataio/AsyncDataIO.cpp:24-24 | In every run, also after the distance went wrong, the bytes sent are the bytes written to the slave plus those in the buffer and in the socket. |
| AsyncDistance.SmallWireIsUnwrapped | source/muscle/dataio/AsyncDataIO.cpp:160-160 | A socket with room for fewer than 2^32 - 4096 bytes keeps fewer than 2^32 bytes under way in every run. |
| AsyncDistance.WrappedDistanceRunsACommandTwice | source/muscle/dataio/AsyncDataIO.cpp:149-160 | With room for 2^32 - 4096, sends of at most 2^31 - 1 bytes reach a state in which an earlier flush is run again ahead of 2^32 bytes. |
| AsyncDistance.TraceIsPrefixIff | source/muscle/dataio/AsyncDataIO.cpp:149-236 | For every socket capacity: the trace is a prefix in every run of every device if and only if the capacity is below 2^32 - 4096. |
| AsyncOutcome.WritesJoin | source/muscle/dataio/AsyncDataIO.cpp:176-190 | write(a); write(b) leaves a file-like device as write(a + b) does, past its end too. |
| AsyncOutcome.WritePutsTheBytes | source/muscle/dataio/AsyncDataIO.cpp:176-190 | A write puts each byte at its place from the position on, keeps the others, fills a gap with zeros, and leaves the position behind. |
| AsyncOutcome.CommandsMean | source/muscle/dataio/AsyncDataIO.cpp:217-237 | A seek moves the position by its origin and offset unless that is before the start; a flush changes nothing; a shutdown closes. |
| AsyncOutcome.SeekBackAndOverwrite | source/muscle/dataio/AsyncDataIO.cpp:217-237 | Seeking back over a write and writing as many bytes leaves what the second write alone leaves. |
| AsyncOutcome.WriteIsBytewise | source/muscle/dataio/AsyncDataIO.cpp:176-190 | One write of many bytes is the same bytes one at a time. |
| AsyncOutcome.CallsAreTheirTrace | source/muscle/dataio/AsyncDataIO.cpp:20-72 | Synchronous Write, Seek, Flush and Shutdown calls leave the device that their flattened trace leaves. |
| AsyncOutcome.DeviceFollowsTraceIff | source/muscle/dataio/AsyncDataIO.cpp:168-236 | Throughout a run the device, a file with one position, is what its trace makes of it, if and only if the thread never read a byte from it. |
| AsyncOutcome.ReadsMoveThePosition | source/muscle/dataio/AsyncDataIO.cpp:168-190 | While only bytes and flushes were executed, the position is ahead by exactly the bytes read from the slave. |
| AsyncOutcome.CompleteRunEqualsSynchronousCalls | source/muscle/dataio/AsyncDataIO.cpp:176-236 | When the whole trace was executed and nothing was read from the slave, contents and position equal those of the same calls made synchronously. |
| AsyncOutcome.StreamedRunIsSynchronousIff | source/muscle/dataio/AsyncDataIO.cpp:168-190 | For complete runs of writes and flushes the device ends as it would synchronously if and only if nothing was read from it. |
| AsyncExit.ReadShiftsTheNextWrite | source/muscle/dataio/AsyncDataIO.cpp:168-190 | For every open device, bytes read ahead and bytes written: some run executes the whole trace and leaves the write that many bytes further on. |
| AsyncExit.WriteLandsBehindWhatWasRead | source/muscle/dataio/AsyncDataIO.cpp:168-190 | The file "ab" is read at position 0 and a byte is written: it lands behind the two, at position 2, where the synchronous call replaces the first. |
| AsyncExit.ExitWhenDoneLosesNoByte | source/muscle/dataio/AsyncDataIO.cpp:162-201 | After an exit-when-done exit every byte sent was written, and each command not executed sits exactly at the end of the stream. |
| AsyncExit.LastByteIsExecuted | source/muscle/dataio/AsyncDataIO.cpp:162-201 | Such an exit executed the whole trace when the last thing asked for was a byte. |
| AsyncExit.NothingIsLostWithoutWrites | source/muscle/dataio/AsyncDataIO.cpp:162-162 | And when no byte was ever written and nothing was asked for after the close. |
| AsyncExit.CommandsAtTheEndCanBeLost | source/muscle/dataio/AsyncDataIO.cpp:176-202 | For every sequence of legal calls that ends in a command and has a write (none after a shutdown), some fair run leaves with the trailing commands not executed. |
| AsyncExit.AllCallsAreExecutedIff | source/muscle/dataio/AsyncDataIO.cpp:162-201 | Calls are executed in full by every fair run that exits when done, if and only if they end with a write or contain none. |
| AsyncExit.IdleThreadLeaves | source/muscle/dataio/AsyncDataIO.cpp:162-201 | A thread that has seen the end of the stream, with nothing buffered or queued, leaves in that turn, whether or not the slave can be written to, and does nothing to it. |
| AsyncDataIO.AsyncDataIO.SendToThread | source/muscle/dataio/AsyncDataIO.cpp:20-23 | The socket takes some bytes: the abstract step, and nothing else. |
| AsyncDataIO.AsyncDataIO.CountWritten | source/muscle/dataio/AsyncDataIO.cpp:24-24 | The byte count catches up. |
| AsyncDataIO.AsyncDataIO.Enqueue | source/muscle/dataio/AsyncDataIO.cpp:33-37 | The command is queued with the byte count of that moment. |
| AsyncDataIO.AsyncDataIO.WriteToMainThread | source/muscle/dataio/AsyncDataIO.cpp:241-251 | Returns and splices in all bytes when they fit, else as many as fill the buffer, or none, by allowPartial. |
| AsyncDataIO.AsyncDataIO.CheckCommands | source/muscle/dataio/AsyncDataIO.cpp:147-166 | The queue check on the fields of the loop is the abstract check. |
| AsyncDataIO.AsyncDataIO.ReadFromSlave | source/muscle/dataio/AsyncDataIO.cpp:168-174 | Reads into the array buffer append to the abstract one. |
| AsyncDataIO.AsyncDataIO.WriteToSlave | source/muscle/dataio/AsyncDataIO.cpp:176-192 | Write, index update, reset of an emptied buffer, and the exit test are the abstract step. |
| AsyncDataIO.AsyncDataIO.ReceiveFromMain | source/muscle/dataio/AsyncDataIO.cpp:196-200 | Received bytes are appended to the buffer. |
| AsyncDataIO.AsyncDataIO.SendToMain | source/muscle/dataio/AsyncDataIO.cpp:204-214 | Sends a prefix of the buffered bytes and skips it. |
| AsyncDataIO.AsyncDataIO.RunCurrentCommand | source/muscle/dataio/AsyncDataIO.cpp:217-237 | Runs the command in curCmd. |
| AsyncDataIO.AsyncDataIO.Execute | source/muscle/dataio/AsyncDataIO.cpp:92-239 | Any interleaving executed on the object leaves the state of the abstract run. |
| AsyncDataIO.RunFresh | source/muscle/dataio/AsyncDataIO.cpp:92-239 | From a fresh object any interleaving ends in the state of the abstract run, so that all results above hold of the object. |
| Payload.MungeTwice | source/hishare/ShareFileTransfer.cpp:881-883 | Munging twice restores the data. |
| Payload.MungedIsComplement | source/hishare/ShareFileTransfer.cpp:881-883 | Every munged byte is the complement of the byte to 255. |
| Payload.MungeInPlace | source/hishare/ShareFileTransfer.cpp:881-883 | Munges the first numBytes bytes of the buffer and no others. |
| Payload.CalculateChecksum | source/hishare/ShareFileTransfer.cpp:820-827 | Computes the wrap-around sum of bytes shifted by index modulo 24. |
| Payload.PlacesWeigh | source/hishare/ShareFileTransfer.cpp:820-827 | A byte counts 1, 2, 256 and 2^23 times at places 0, 1, 8 and 23, and once again at place 24. |
| Payload.SumWraps | source/hishare/ShareFileTransfer.cpp:820-827 | The sum wraps around at 2^32. |
| Payload.SingleByteChangeIsDetected | source/hishare/ShareFileTransfer.cpp:820-827 | Any change of one byte, at any place, changes the checksum. |
| Payload.SwapIsUnnoticedIff | source/hishare/ShareFileTransfer.cpp:820-827 | Two different bytes, anywhere in any data, can trade places unnoticed if and only if their distance is a multiple of 24. |
| UploadSpec.AuxMakesProgress | source/hishare/ShareFileTransfer.cpp:829-837 | Each call that asks for another lowers 2*filesLeft + (bytesDone >= 0 ? 1 : 0), so the loop of DoUpload ends. |
| UploadProofs.PlainOfDataMessage | source/hishare/ShareFileTransfer.cpp:875-892 | What the receiver unmunges is what the uploader read, for every munge mode asked for. |
| UploadProofs.PayloadsAreRequestedRanges | source/hishare/ShareFileTransfer.cpp:839-1025 | In every run of drains, pauses, resumptions and short reads, the unmunged payloads after each header are the whole requested range of every finished file, in order, and a prefix of the next one. |
| UploadProofs.FinishedUploadIsComplete | source/hishare/ShareFileTransfer.cpp:1013-1017 | When the uploader waits for its last bytes to leave, header and exact range of every openable file were sent, and nothing else. |
| UploadMessages.MessagesAreTrue | source/hishare/ShareFileTransfer.cpp:839-1025 | In every run each message is true: a chunk has 1 to 8192 bytes, the sum of its bytes, and mode 1 exactly if that was asked for. |
| UploadMessages.HeadersAreTrue | source/hishare/ShareFileTransfer.cpp:953-974 | In every run each header announces the size of its file, the requested start, and the length of the range, or -1 without one. |
| UploadMessages.ChunksAreFull | source/hishare/ShareFileTransfer.cpp:857-910 | With a device that delivers what is asked for, a chunk has 8192 bytes or all that is left of the range or of the file. |
| UploadProofs.NothingIsSentWhileWaiting | source/hishare/ShareFileTransfer.cpp:843-843 | From a pause until BeginTransfer nothing is sent, whatever drains arrive. |
| UploadMessages.PauseHoldsEverything | source/hishare/ShareFileTransfer.cpp:1858-1864 | After any events and a pause, nothing is sent until an enabled BeginTransfer. |
| UploadMessages.NothingBeforeBegin | source/hishare/ShareFileTransfer.cpp:843-843 | Nor before the first one. |
| UploadMessages.UploadsEnd | source/hishare/ShareFileTransfer.cpp:646-651 | A list of nothing ends the session, and the drain that a finishing upload waits for ends it. |
| UploadProofs.UploadStaysAwake | source/hishare/ShareFileTransfer.cpp:904-910 | In every run an upload in progress has a drain coming, unless its cursor is at a file that could not be opened. |
| UploadStall.UnopenedFileStalls | source/hishare/ShareFileTransfer.cpp:953-1018 | With a file among those asked for that cannot be opened, some run halts: connected, not paused, and no drain to come. |
| UploadStall.NeverStallsIff | source/hishare/ShareFileTransfer.cpp:839-1019 | An upload of given files never halts, in any run, if and only if all of them open. |
| UploadProofs.EstimateNeverUnderestimates | source/hishare/ShareFileTransfer.cpp:1872-1890 | With unchanged files GetNumBytesLeftToUpload is never below what is still to be sent. |
| UploadProofs.EstimateNeverGrows | source/hishare/ShareFileTransfer.cpp:1872-1890 | Once the files are known no event raises it. |
| UploadMessages.EstimateIsExactForWholeFiles | source/hishare/ShareFileTransfer.cpp:1872-1890 | For whole files it is exactly what is still to be sent. |
| Uploader.Uploader.GetNumBytesLeftToUpload | source/hishare/ShareFileTransfer.cpp:1872-1890 | The loop over the remaining names computes the estimate. |
| Uploader.Uploader.ReadChunk | source/hishare/ShareFileTransfer.cpp:864-872 | Reads no further than asked, than the file goes, or than the device delivers. |
| Uploader.Uploader.BuildData | source/hishare/ShareFileTransfer.cpp:873-899 | Munges in place when asked to and sums what is sent, in that order. |
| Uploader.Uploader.DoUploadAux | source/hishare/ShareFileTransfer.cpp:839-1025 | One call on the fields is one abstract step, in all branches. |
| Uploader.Uploader.DoUpload | source/hishare/ShareFileTransfer.cpp:829-837 | The loop is the abstract upload. |
| Uploader.Uploader.Handle | source/hishare/ShareFileTransfer.cpp:801-810 | Drain, pause, begin and file-list events are the abstract events. |
| Uploader.RunSession | source/hishare/ShareFileTransfer.cpp:801-1025 | A session on the object ends in the state of the abstract run, so that the results above hold of it. |
| Resume.BuildRequest | source/hishare/ShareFileTransfer.cpp:210-228 | The fields put into the request are those of the partial file, with the digest that hashing it yields, cached or not; or offset 0 when it could not be hashed. |
| Resume.RequestIsTrueIff | source/hishare/ShareFileTransfer.cpp:210-228 | The request tells the truth about the partial file if and only if only its end is hashed, or it is empty, or its cached digest is not stale. |
| Resume.VerifyRequest | source/hishare/ShareFileTransfer.cpp:245-287 | The offset is that of the comparison with what hashing the local file yields, cached or not; or 0 when it could not be hashed. |
| Resume.Negotiate | source/hishare/ShareFileTransfer.cpp:210-287 | Both steps together: whatever reads fail, the offset is the granted one or 0, and it is the granted one when none does. |
| Resume.GrantedIff | source/hishare/ShareFileTransfer.cpp:252-285 | Without an MD5 collision on the compared slices, the offset is granted if and only if the uploader's file is long enough and agrees on exactly the compared bytes. |
| Resume.ResumeIsCorrect | source/hishare/ShareFileTransfer.cpp:210-287 | For the granted offset, and for 0 after a failed hash: the saved file has the length of the uploader's; from offset 0 it is the uploader's; else it agrees from the compared bytes on, and is the uploader's file if and only if the unchecked beginnings agree. |
| Resume.FullHashResumeIsExact | source/hishare/ShareFileTransfer.cpp:210-228 | With the whole partial file hashed (partial hash size 0 or at least its length) the saved file is always the uploader's. |
| Resume.UncheckedBeginningSurvives | source/hishare/ShareFileTransfer.cpp:265-278 | With a shorter hash it need not be: a different first byte is kept. |
| Resume.ChangedLocalFileLosesTheBeginning | source/hishare/ShareFileTransfer.cpp:1143-1154 | If the local file has another size when the header arrives, the new file lacks the granted beginning, and only then. |
| Download.Downloader.FileHeader | source/hishare/ShareFileTransfer.cpp:1101-1236 | An unknown name or a file that cannot be created aborts; else a file is started, appending only to one of exactly the announced size. |
| Download.Downloader.Unpack | source/hishare/ShareFileTransfer.cpp:1246-1290 | In this order: the sum, if one was sent, then unmunging in place; data is rejected exactly for a wrong sum or an unknown mode. |
| Download.Downloader.FileData | source/hishare/ShareFileTransfer.cpp:1240-1319 | Accepted data is appended as far as the disk takes it; a short write, like rejected data, aborts. |
| Download.RunIsHonest | source/hishare/ShareFileTransfer.cpp:873-899 | Whatever an uploader sends is accepted: its sums and modes are right and no data precedes its header. |
| Download.GarbledByteClosesTheSession | source/hishare/ShareFileTransfer.cpp:1248-1265 | Any one byte of a sent chunk changed on the way, in any mode, aborts the session, and nothing is stored. |
| Download.DataIsTakenIff | source/hishare/ShareFileTransfer.cpp:1240-1319 | Data leaves the session open if and only if a file is current, the sum is absent or right, the mode is 0 or 1 and the disk takes all; it is then stored in plain. |
| Download.HeaderIsTakenIff | source/hishare/ShareFileTransfer.cpp:1101-1236 | A header does if and only if its file is wanted and can be created; size and byte count are then as announced. |
| Download.ReceivedIsDecoded | source/hishare/ShareFileTransfer.cpp:1101-1319 | Messages for distinct wanted files are saved as base plus the payloads after each header, and all are accepted. |
| Download.SessionDeliversEveryFile | source/hishare/ShareFileTransfer.cpp:841-1319 | However drains, pauses, short reads and resumptions go, when the uploader has finished and its messages arrived, every file was saved, from the offset its upload started at; size and byte count of the last are its length. |
| Download.SessionResumesCorrectly | source/hishare/ShareFileTransfer.cpp:210-1319 | End to end: with offsets negotiated from the partial files, failed hashes included, every saved file is correct in the sense of ResumeIsCorrect. |
| Lifecycle.RunKeeps | source/hishare/ShareFileTransfer.cpp:743-795 | In every reachable state, inbound uploads included: a pending restart implies that a connection was made, so does an open connection of a download, and the books of losses and retries balance. |
| Lifecycle.RestartsAreEarned | source/hishare/ShareFileTransfer.cpp:1302-1304 | Over any stretch of a run automatic restarts do not outnumber the chunks written in it, but for one earned before. |
| Lifecycle.RestartsNeverOutnumberChunks | source/hishare/ShareFileTransfer.cpp:1302-1304 | Over a whole run automatic restarts never outnumber chunks written. |
| Lifecycle.StoppedStaysStopped | source/hishare/ShareFileTransfer.cpp:1420-1420 | After a forced or error-free stop no restart happens by itself before another chunk is written. |
| Lifecycle.LossRestartsIff | source/hishare/ShareFileTransfer.cpp:743-795 | A lost connection starts the transfer over if and only if a chunk has earned it and the current file or the list is unfinished; otherwise the transfer is over. |
| Lifecycle.AbortRestartsIff | source/hishare/ShareFileTransfer.cpp:1414-1441 | An abort does if and only if it is an error, not forced, and a chunk has earned it. |
| Lifecycle.ConnectionIsKeptIff | source/hishare/ShareFileTransfer.cpp:685-739 | A connection is recorded for good and stays open for uploads and for downloads whose hashing has started, and only then. |
| Lifecycle.ResumeStartsOver | source/hishare/ShareFileTransfer.cpp:1834-1856 | A restart waits for its turn with nothing done, in accept mode exactly without an address, and keeps what is wanted. |
| Lifecycle.ReceivingTallies | source/hishare/ShareFileTransfer.cpp:1101-1308 | Over any headers and chunks of a connection, size, bytes, files begun and names crossed off are what the events add up to. |
| Lifecycle.InterruptedDownloadRestartsIff | source/hishare/ShareFileTransfer.cpp:743-795 | From its events alone: a download that is begun, connected, given headers and chunks and loses its connection starts over if and only if something was written and file or list is unfinished; it then wants the files not crossed off. |
| Lifecycle.BeginConnectsIff | source/hishare/ShareFileTransfer.cpp:1732-1775 | Beginning a download connects if an address is known, and else only waits to be connected to. |
| Lifecycle.RetryStartsOverIff | source/hishare/ShareWindow.cpp:4434-4470 | A posted retry starts the transfer over, in accept mode, if and only if it is a download not under way, the peer can reach us, and it was set up. |
| Lifecycle.ConnectBackIsTriedOnce | source/hishare/ShareFileTransfer.cpp:768-777 | The connect-back retry is posted at most once in a run: exactly by a loss, before any connection was ever made, of an outgoing download that is incomplete or in error. |
| Lifecycle.RestartIsAFreshStart | source/hishare/ShareFileTransfer.cpp:1834-1856 | Every run after a restart is that of a fresh transfer of the files still wanted; of the past only the connected-once and retry-used flags and pending retries have an effect. |
| Lifecycle.LossIsAnsweredOnce | source/hishare/ShareFileTransfer.cpp:743-795 | Over a whole run every loss of a connection is answered in exactly one way: by an automatic restart, by telling the window, by a retry that restarted, or by a retry still pending. |
| Lifecycle.RetryIsNeverForgotten | source/hishare/ShareWindow.cpp:4434-4470 | In every run the posted retries are those restarted, those declined and told to the window, and those still pending; there is at most one. |
| Lifecycle.ShareFileTransfer.InitSocketUploadSession | source/hishare/ShareFileTransfer.cpp:547-573 | An upload over a socket that a peer opened starts connected. |
| Lifecycle.ShareFileTransfer.AbortSession | source/hishare/ShareFileTransfer.cpp:1414-1441 | The mutual recursion with RestartSession ends, and the state is that of the abstract stop. |
| Lifecycle.ShareFileTransfer.RestartSession | source/hishare/ShareFileTransfer.cpp:1834-1856 | Back to the initial state, in connect or accept mode by whether an address is known; nothing about earlier connections is forgotten. |
| Lifecycle.ShareFileTransfer.OnConnected | source/hishare/ShareFileTransfer.cpp:685-739 | A connection is recorded for good; failing to start hashing stops the session. |
| Lifecycle.ShareFileTransfer.OnDisconnected | source/hishare/ShareFileTransfer.cpp:743-795 | The DISCONNECTED event is the abstract loss. |
| Lifecycle.ShareFileTransfer.OnChunkWritten | source/hishare/ShareFileTransfer.cpp:1302-1308 | A written chunk earns one restart. |
| LowPriority.TakesBounds | source/hishare/ShareNetClient.cpp:228-235 | A chunk stops at the first message that reaches 4096 bytes, or at the end of the queue. |
| LowPriority.HandedOverInOrder | source/hishare/ShareNetClient.cpp:206-238 | In every run, refused drain requests included, messages are handed over once and in order, apart from explicit clears. |
| LowPriority.EveryMessageIsHandedOverOrQueued | source/hishare/ShareNetClient.cpp:206-238 | From the events alone: on a new connection every message asked for is handed over or queued, once and in order, whatever the drain requests answer. |
| LowPriority.DrainsMakeProgress | source/hishare/ShareNetClient.cpp:374-377 | Every drain hands over at least one waiting message, and all when they are below 4096 bytes without the last. |
| LowPriority.WhatIsDropped | source/hishare/ShareNetClient.cpp:153-155 | Clearing and disconnecting drop exactly what waits, and nothing is accepted without a connection. |
| LowPriority.QueueIsPacedAndNeverStuck | source/hishare/ShareNetClient.cpp:206-238 | While drain requests succeed, a non-empty queue has exactly one drain outstanding, and one interval hands over less than 4096 bytes before its last message. |
| LowPriority.ChunkStrandsIff | source/hishare/ShareNetClient.cpp:222-238 | From any state without a drain, a chunk leaves messages waiting with no drain to come if and only if its request is refused and more waits than one chunk takes. |
| LowPriority.QueueIsNeverStrandedIff | source/hishare/ShareNetClient.cpp:206-238 | Throughout a run whatever waits has a drain to come, if and only if no drained notification is answered by a refused request while more waits than one chunk takes. |
| LowPriority.RefusedRequestStrandsTheQueue | source/hishare/ShareNetClient.cpp:236-236 | Such a run exists. |
| LowPriority.ShareNetClient.CheckSendMoreLowPriorityMessages | source/hishare/ShareNetClient.cpp:222-238 | The loop takes exactly the abstract chunk. |
| LowPriority.ShareNetClient.SendMessageToSessions | source/hishare/ShareNetClient.cpp:206-220 | Queues the message, then tries to send. |
| LowPriority.ShareNetClient.OutputQueuesDrained | source/hishare/ShareNetClient.cpp:374-377 | A drain permits the next chunk. |
| LowPriority.ShareNetClient.DisconnectFromServer | source/hishare/ShareNetClient.cpp:153-156 | Pending messages are dropped with the connection. |
| SharedNames.NextKeepsCovered | source/hishare/ShareNetClient.cpp:505-531 | Every step keeps each name's count at least the number of nodes carrying it. |
| SharedNames.LiveNamesAreFound | source/hishare/ShareNetClient.cpp:1500-1527 | In every reachable state the name of every live node can be looked up. |
| SharedNames.FirstEntryStays | source/hishare/ShareNetClient.cpp:585-592 | The first file of a name decides its entry and size; other nodes and names are untouched. |
| SharedNames.LastOneTakesTheName | source/hishare/ShareNetClient.cpp:503-532 | A node that goes takes its name with it exactly if no other counts for it; entries and sizes of the others stay. |
| SharedNames.NothingIsSharedAfter | source/hishare/ShareNetClient.cpp:158-169 | After sharing was switched off, or a connection ended, no name is found and no node known, whatever happened before. |
| SharedNames.AgreementIsKeptIff | source/hishare/ShareNetClient.cpp:585-592 | From agreeing tables a step keeps counts and carriers equal if and only if it inserts a fresh node id or removes while connected. |
| SharedNames.NamesKeepLeadingIff | source/hishare/ShareNetClient.cpp:503-532 | While every name leads to an entry some node has, a step keeps it so if and only if it does not take the last node of the entry recorded for a name that stays. |
| SharedNames.NamesAlwaysLeadIff | source/hishare/ShareNetClient.cpp:503-532 | Throughout a run every name leads to a live entry if and only if no step does that. |
| SharedNames.NameCanLeadToARemovedFile | source/hishare/ShareNetClient.cpp:1512-1527 | Two files of one name: removing the first does. |
| SharedNames.ReusedNodeStrandsTheOldName | source/hishare/ShareNetClient.cpp:591-592 | So does a node id that is entered again under another name. |
| SharedNames.SharedFiles.RefFilename | source/hishare/ShareNetClient.cpp:1512-1519 | Counts up, or enters the name with count 1; the first entry stays. |
| SharedNames.SharedFiles.UnrefFilename | source/hishare/ShareNetClient.cpp:1521-1527 | Counts down and removes the name at 0. |
| SharedNames.SharedFiles.NodeCreated | source/hishare/ShareNetClient.cpp:586-596 | Counts the name, then records the node. |
| SharedNames.SharedFiles.NodeRemoved | source/hishare/ShareNetClient.cpp:503-532 | Removes the node, and counts its name down only while connected. |
| SharedNames.SharedFiles.UnwatchAllDirs | source/hishare/ShareNetClient.cpp:158-169 | Empties both tables. |
| PortMapping.ReportsAreRegular | source/hishare/PortMapper.cpp:212-306 | Over any run of a fresh mapper the reports follow TRYING FAILED* (MAPPED+ LOST)* MAPPED* [REMOVED], with REMOVED exactly when MAPPED was ever reported. |
| PortMapping.RecordsAgree | source/hishare/PortMapper.cpp:226-281 | At every loop head the three records of being mapped agree, with the last report and with the ports. |
| PortMapping.FirstAnswerIsReported | source/hishare/PortMapper.cpp:226-263 | In any run: PCP, then NAT-PMP, both only with a known gateway, then UPnP with an hour; the port of whichever answers is reported and half its lease scheduled, or 30 s when it is at most a minute. |
| PortMapping.NoAnswerIsReported | source/hishare/PortMapper.cpp:264-282 | Without an answer a held mapping is reported lost and a first failure failed, nothing otherwise; the next attempt is a minute later. |
| PortMapping.EarlyTurnDoesNothing | source/hishare/PortMapper.cpp:226-227 | A turn before the scheduled time does nothing. |
| PortMapping.FirstTurnIsDue | source/hishare/PortMapper.cpp:212-223 | The loop begins with a report that it tries, unmapped, and an attempt due at once. |
| PortMapping.RenewalBeforeExpiryIff | source/hishare/PortMapper.cpp:262-263 | The renewal of a grant is due before it expires if and only if its lease is over 30 s. |
| PortMapping.LeasesAreRenewedInTime | source/hishare/PortMapper.cpp:226-281 | While a lease over 30 s is held the next attempt is scheduled before it expires, and attempts are never closer than 30 s. |
| PortMapping.PortMapper.Report | source/hishare/PortMapper.cpp:184-206 | The report sets the mapped flag and the port: kept by TRYING, set by MAPPED, cleared by the others. |
| PortMapping.PortMapper.Attempt | source/hishare/PortMapper.cpp:227-283 | PCP, then NAT-PMP, both only with a known gateway, then UPnP; the state is that of the abstract turn. |
| PortMapping.PortMapper.Renew | source/hishare/PortMapper.cpp:246-263 | A successful attempt. |
| PortMapping.PortMapper.GiveUp | source/hishare/PortMapper.cpp:264-282 | A failed attempt, while mapped and while not. |
| PortMapping.PortMapper.ThreadLoop | source/hishare/PortMapper.cpp:211-306 | The whole loop on the fields is the abstract run, and the method unmapped at the end is the active one. |
| Ipv4Text.BuffersSuffice | source/hishare/PortMapper.cpp:73-81 | Neither the 24-byte nor the 16-byte buffer ever truncates an address. |
| Ipv4Text.OctetsReadHighToLow | source/hishare/PortMapper.cpp:73-81 | The four octets are printed in decimal, the high one first. |
| Ipv4Text.KnownAddresses | source/hishare/PortMapper.cpp:73-81 | 0x7F000001 is 127.0.0.1 and 0xC0A801FE is 192.168.1.254. |
| Ipv4Text.BlanksAndSignsAreSkipped | source/hishare/PortMapper.cpp:635-635 | Between a dot and its number blanks and a sign are allowed, as by %d. |
| Ipv4Text.FoundAddressStandsAlone | source/hishare/PortMapper.cpp:625-647 | A found address starts at a digit that neither digit nor dot precedes and ends where neither follows. |
| Ipv4Text.DottedReadBack | source/hishare/PortMapper.cpp:635-635 | Scanning four printed numbers yields them and stops at their end. |
| Ipv4Text.PrintedAddressIsFound | source/hishare/PortMapper.cpp:73-81 | For every 32-bit address and any text around it without digits before it or digits and dots next to it, the scan returns exactly the printed address. |
| Ipv4Text.FoundTextIsAnAddress | source/hishare/PortMapper.cpp:625-647 | Whatever the scan returns is the printed form of some 32-bit address. |
| Ipv4Text.FoundTextIsFoundAgain | source/hishare/PortMapper.cpp:625-647 | Scanning a found address again yields itself. |
| Ipv4Text.ExtractIPv4 | source/hishare/PortMapper.cpp:625-647 | The loop returns the first address in the text, and leaves the output alone when there is none. |
| Catkeys.UnescapeC | source/hishare/locale/gen-catkeys.py:35-57 | The index loop, with its octal, hexadecimal and one-letter branches, computes the recursive unescaping, including the input on which Python raises ValueError. |
| Catkeys.OneEscape | source/hishare/locale/gen-catkeys.py:44-56 | One escape: at most three octal digits, any number of hexadecimal ones, or a letter. |
| Catkeys.TakeRun | source/hishare/locale/gen-catkeys.py:47-53 | Gathers the longest run of digits within the limit. |
| Catkeys.ReplaceAfterExpand | source/hishare/locale/gen-catkeys.py:67-68 | A replace after a one-pass character map is again a one-pass map. |
| Catkeys.CatkeysEscapeIsOnePass | source/hishare/locale/gen-catkeys.py:67-68 | The chain of four replaces equals one pass, since no later replace meets what an earlier one put in. |
| Catkeys.LiteralEscapeIsOnePass | source/hishare/locale/gen-catkeys.py:97-97 | So does the chain of five for C literals. |
| Catkeys.CatkeysRoundTrip | source/hishare/locale/gen-catkeys.py:67-68 | unescape_c(catkeys_escape(s)) == s for every string. |
| Catkeys.LiteralRoundTrip | source/hishare/locale/gen-catkeys.py:97-97 | unescape_c of the C-literal escape of s is s for every string. |
| Catkeys.OctalDenotes | source/hishare/locale/gen-catkeys.py:46-50 | A backslash and up to three octal digits denote the character of that number. |
| Catkeys.HexDenotes | source/hishare/locale/gen-catkeys.py:51-55 | A backslash, x and hexadecimal digits denote the character of that number; it is an error past the last character or without a digit. |
| Catkeys.LettersDenote | source/hishare/locale/gen-catkeys.py:45-56 | The letters n, t, r, a, b, f and v denote control characters, and any other character itself. |
| Catkeys.PlainDenotesItself | source/hishare/locale/gen-catkeys.py:38-43 | A character without a backslash denotes itself, and a backslash at the end nothing. |
| Catkeys.LiteralIsScannedWhole | source/hishare/locale/gen-catkeys.py:63-65 | An escaped string between quotes is taken out whole by the literal pattern, whatever quotes and backslashes it has. |
| Catkeys.WrittenLineParsesBack | source/hishare/locale/gen-catkeys.py:111-134 | A catalogue line is one line of four fields whatever the translation holds, and its last field unescapes to the translation. |
| LabelledUrls.SubstituteLabelledURLs | source/hishare/ShareUtils.cpp:63-118 | The one-pass automaton computes the recursive reading of the text; its invariant accounts for every consumed character. |
| LabelledUrls.ShownIsASubsequence | source/hishare/ShareUtils.cpp:63-118 | The result is always a subsequence of the input. |
| LabelledUrls.NoBracketNoChange | source/hishare/ShareUtils.cpp:63-118 | An input without a closing bracket is returned unchanged. |
| LabelledUrls.LabelTakesTheLinksPlace | source/hishare/ShareUtils.cpp:79-101 | The first link that blanks and a label follow gives way to its label; the text before stays, and the text after is treated as if the line went on. |
| LabelledUrls.EverySchemeCanBeLabelled | source/hishare/ShareUtils.cpp:120-127 | Each of the nine schemes, with any text up to blanks and a bracketed label after them, is shown as the label. |
| LabelledUrls.NoSchemeNoChange | source/hishare/ShareUtils.cpp:120-127 | A text in which none of them begins at the start or after a blank is returned unchanged. |
| LabelledUrls.UnlabelledLinkIsKept | source/hishare/ShareUtils.cpp:86-96 | A link that something else follows is kept with it, and no link is seen to start there. |
| LabelledUrls.LinkStartsWithALetter | source/hishare/ShareUtils.cpp:120-127 | No link prefix starts with a blank. |

## Left out

- Lifecycle.ShareFileTransfer.AbortSession: its flags and counters are grouped into four records, each updated in place; the waiting-on-remote flag, timers and the file set itself (only its size) are not modelled.
- Lifecycle.RunKeeps: an upload's own cursor is any sequence of UploadMoved events here; UploadSpec has the cursor.
- Uploader.Uploader.AbortSession: models the upload side alone, where no chunk is ever received and therefore no restart is due; Lifecycle has the general one.
- Uploader.Uploader.DoUploadAux: allocation failures, and a size or seek failure after a successful open, are not modelled; the header carries no attributes.
- UploadSpec.AuxMakesProgress: requested offsets are not negative, and a second file list, which a peer can send and which restarts the iterator, is not modelled.
- Download.Downloader.FileHeader: renames by GenerateNewFilename and paths are not modelled; the index of a file stands for its distinct name, and a new file never collides with an old one.
- Resume.ResumeIsCorrect: assumes that the local partial file does not change between request and header and that the request has no byte range; the changed file is treated by its own lemma.
- SharedNames.SharedFiles.NodeRemoved: the branch for watched directories, and the messages to the server, are not modelled.
- HashFile.FileNode.HashFileMD5: lengths and offsets are unbounded integers, so an overflow of offset+len in 64 bits is not modelled, nor is the byte layout of the cached attribute.
- AsyncDataIO.AsyncDataIO.Enqueue: locking the mutex and adding to the queue always succeed; the byte counts, 64 bits wide in the source, are unbounded.
- AsyncDataIO.AsyncDataIO.WriteToSlave: the slave is a reliable file; what a read delivers is any sequence of bytes, not only the contents of the file; a slave that fails is the Fail event, after which only the prefix property is claimed.
- PortMapping.LeasesAreRenewedInTime: speaks of the scheduled time, with one reading of the clock per turn; the time an attempt or a reachability probe takes is not modelled.
- Ipv4Text.ExtractIPv4: numbers are unbounded where sscanf leaves a number past the range of int undefined.
- LabelledUrls.SubstituteLabelledURLs: the text has no NUL character, which ends a C string.
- AsyncExit.AllCallsAreExecutedIff: speaks of calls made before the main thread closes its end; a command issued after that may be lost as well.
- Liveness of AsyncDataIO: notify bytes and select are not modelled, so it is not claimed that every command runs eventually.
- The share-scan thread: each handler of ShareNetClient is one step; watched directories, node monitoring and the messages to the server are left out.
- Reference counts in 32 bits: 2^31 files of one name are not considered.
- MD5 on big-endian machines: byte swapping is the explicit decoding of little-endian words.
- The catalogue tools that gen-catkeys.py calls, and its reading of the array declarations: only the strings are modelled.
- PCP, NAT-PMP, UPnP and the HTTP probe: each attempt is a parameter of the turn, as is the clock.
- Scheduling of transfers by ShareWindow: begin, pause and resume are events in any order.
- TLS, rate limits, bandwidth display, drawing and the string tables.
