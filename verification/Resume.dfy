/** Resuming a download: what the downloader asks for, what the uploader grants after comparing
    digests, and what the receiving side ends up with. */
module Resume {
  import opened Machine
  import opened Payload
  import opened Option
  import opened UploadSpec
  import opened UploadProofs
  import opened HashFile
  import Md5Spec

  // ----- the request, and its verification

  /** The "offsets", "numbytes" and "md5" fields of one requested file. */
  datatype ResumeRequest = ResumeRequest(offset: int, numBytes: Option<int>, digest: seq<Byte>)

  /** What the downloader says about its partial file (None: there is none, or it was not
      hashed); partialHashSize 0 means that the whole of it is hashed. */
  function RequestFor(local: Option<seq<Byte>>, partialHashSize: nat): ResumeRequest {
    var whole := if local.Some? then local.value else [];
    var slice := Requested(whole, 0, partialHashSize).value;
    ResumeRequest(|whole|, if partialHashSize > 0 then Some(|slice|) else None,
                  if |whole| > 0 then Md5Spec.Digest(slice) else [0])
  }

  /** Length and start of the slice the uploader compares. */
  function Compared(r: ResumeRequest): (int, int) {
    var n := if r.numBytes.Some? then r.numBytes.value else 0;
    if r.numBytes.Some? && n <= r.offset then (n, r.offset - n) else (r.offset, n)
  }

  /** The offset the upload will start from. */
  function Granted(r: ResumeRequest, mine: Option<seq<Byte>>): int {
    if r.offset <= 0 then r.offset
    else if |r.digest| != 16 || mine.None? then 0
    else
      var (len, from) := Compared(r);
      var slice := Requested(mine.value, len, from);
      if slice.Some? && Md5Spec.Digest(slice.value) == r.digest then r.offset else 0
  }

  /** The same fields when the digest is the one that hashing the file yields, cached or not. */
  function RequestOf(local: FileState, partialHashSize: nat): ResumeRequest {
    var slice := Requested(local.content, 0, partialHashSize).value;
    ResumeRequest(|local.content|, if partialHashSize > 0 then Some(|slice|) else None,
                  if |local.content| > 0 then local.Answer(0, partialHashSize).value else [0])
  }

  function GrantedBy(r: ResumeRequest, mine: FileState): int {
    if r.offset <= 0 then r.offset
    else if |r.digest| != 16 then 0
    else
      var (len, from) := Compared(r);
      if mine.Answer(len, from) == Some(r.digest) then r.offset else 0
  }

  /** MD5SendLooper: hashes the partial file into the request. */
  method BuildRequest(node: FileNode, partialHashSize: nat, device: nat -> int, stop: nat -> bool)
    returns (r: ResumeRequest)
    modifies node`cache
    ensures r == RequestOf(old(node.State()), partialHashSize) || r.offset == 0
    ensures node.readable && (forall k: nat :: device(k) > 0 && !stop(k)) ==>
      r == RequestOf(old(node.State()), partialHashSize)
  {
    hide Md5Spec.Digest;
    var ok, fileOffset, retBytesHashed, digest := node.HashFileMD5(0, partialHashSize, device, stop);
    if !ok {
      return ResumeRequest(0, if partialHashSize > 0 then Some(retBytesHashed) else None, [0]);
    }
    r := ResumeRequest(fileOffset, if partialHashSize > 0 then Some(retBytesHashed) else None,
                       if fileOffset > 0 then digest else [0]);
  }

  /** MD5ReceiveLooper: verifies the partial file against the local one. */
  method VerifyRequest(r: ResumeRequest, node: FileNode, device: nat -> int, stop: nat -> bool)
    returns (offset: int)
    modifies node`cache
    ensures offset == GrantedBy(r, old(node.State())) || offset == 0
    ensures node.readable && (forall k: nat :: device(k) > 0 && !stop(k)) ==>
      offset == GrantedBy(r, old(node.State()))
  {
    hide Md5Spec.Digest;
    if r.offset <= 0 {
      return r.offset;
    }
    var uploadOffset := 0;
    if |r.digest| == 16 {
      var len, readLength := r.offset, 0;
      if r.numBytes.Some? {
        readLength := r.numBytes.value;
        if readLength <= r.offset {
          // the slice that ends at r.offset
          len, readLength := readLength, r.offset - readLength;
        }
      }
      assert (len, readLength) == Compared(r);
      var ok, _, _, myDigest := node.HashFileMD5(len, readLength, device, stop);
      if ok && r.digest == myDigest {
        uploadOffset := r.offset;
      }
    }
    return uploadOffset;
  }

  lemma WholeIsContent(s: FileState, len: int, offset: int)
    ensures s.Hit(len, offset) ==> s.Hit(0, 0) && Requested(s.content, len, offset) == Some(s.content)
  {
    assert s.content[..|s.content|] == s.content;
  }

  lemma CoherentAnswers(s: FileState, len: int, offset: int)
    requires s.Coherent() && Requested(s.content, len, offset).Some?
    ensures s.Answer(len, offset) == Some(Md5Spec.Digest(Requested(s.content, len, offset).value))
  {
    hide Md5Spec.Digest;
    WholeIsContent(s, len, offset);
  }

  /** The request tells the truth about the partial file exactly if only its end is hashed, or it
      is empty, or its cached digest is not stale. */
  lemma RequestIsTrueIff(local: FileState, p: nat)
    ensures RequestOf(local, p) == RequestFor(Some(local.content), p)
            <==> p > 0 || local.content == [] || local.Coherent()
  {
    hide Md5Spec.Digest;
  }

  lemma GrantIsTrue(r: ResumeRequest, mine: FileState)
    requires mine.Coherent()
    ensures GrantedBy(r, mine) == Granted(r, Some(mine.content))
  {
    hide Md5Spec.Digest, FileState.Coherent;
    var (len, from) := Compared(r);
    if Requested(mine.content, len, from).Some? {
      CoherentAnswers(mine, len, from);
    }
  }

  /** Request and verification together: whatever reads fail or stop, the offset is the granted one
      or 0. */
  method Negotiate(local: FileNode, mine: FileNode, partialHashSize: nat,
                   device: nat -> int, stop: nat -> bool, device': nat -> int, stop': nat -> bool)
    returns (offset: nat)
    requires local != mine && local.State().Coherent() && mine.State().Coherent()
    modifies local`cache, mine`cache
    ensures offset == Granted(RequestFor(Some(local.content), partialHashSize), Some(mine.content)) || offset == 0
    ensures local.readable && mine.readable && (forall k: nat :: device(k) > 0 && !stop(k) && device'(k) > 0 && !stop'(k))
      ==> offset == Granted(RequestFor(Some(local.content), partialHashSize), Some(mine.content))
  {
    hide Md5Spec.Digest, Granted, GrantedBy, RequestOf, FileState.Coherent;
    RequestIsTrueIff(local.State(), partialHashSize);
    var r := BuildRequest(local, partialHashSize, device, stop);
    GrantIsTrue(r, mine.State());
    GrantIsNatural(r, Some(mine.content));
    offset := VerifyRequest(r, mine, device', stop');
  }

  lemma GrantIsNatural(r: ResumeRequest, mine: Option<seq<Byte>>)
    requires r.offset >= 0
    ensures Granted(r, mine) >= 0 && (r.offset == 0 ==> Granted(r, mine) == 0)
  {
    hide Md5Spec.Digest;
  }

  // ----- what is saved

  /** The file a header starts: the existing one when it has exactly the announced size, else a
      new one. */
  function Base(existing: Option<seq<Byte>>, startOffset: nat): seq<Byte> {
    if startOffset > 0 && existing.Some? && |existing.value| == startOffset then existing.value else []
  }

  /** What the uploader sends when it starts from offset g. */
  function UploadFrom(mine: seq<Byte>, g: nat): Request { UploadSpec.Request(Some(mine), g, -1) }

  /** The result of one file's transfer from offset g, when the local file did not change
      meanwhile. */
  function SavedFile(local: Option<seq<Byte>>, mine: seq<Byte>, g: nat): seq<Byte> {
    Base(local, g) + Target(UploadFrom(mine, g))
  }

  /** The offsets an uploader may start from: the granted one, or 0 when a hash failed. */
  ghost predicate Negotiated(local: Option<seq<Byte>>, mine: seq<Byte>, p: nat, g: nat) {
    g == 0 || g == Granted(RequestFor(local, p), Some(mine))
  }

  /** How many bytes at the end of the partial file were compared. */
  function ComparedBytes(k: nat, partialHashSize: nat): (n: nat)
    ensures n <= k
  {
    if 0 < partialHashSize < k then partialHashSize else k
  }

  /** The slices compared have equal digests only if they are equal. */
  ghost predicate NoCollision(local: seq<Byte>, mine: seq<Byte>, n: nat)
    requires n <= |local|
  {
    |mine| >= |local| ==>
      Md5Spec.Digest(local[|local| - n..]) == Md5Spec.Digest(mine[|local| - n..|local|])
      ==> local[|local| - n..] == mine[|local| - n..|local|]
  }

  lemma RequestedSlices(local: seq<Byte>, mine: seq<Byte>, p: nat)
    requires local != []
    ensures var n := ComparedBytes(|local|, p);
            && Requested(local, 0, p) == Some(local[|local| - n..])
            && Compared(RequestFor(Some(local), p)) == (n, |local| - n)
            && Requested(mine, n, |local| - n)
               == if |local| <= |mine| then Some(mine[|local| - n..|local|]) else None
  {
    hide Md5Spec.Digest;
    assert local[0..] == local;
  }

  /** The offset is granted exactly when the compared bytes agree. */
  lemma GrantedIff(local: seq<Byte>, mine: seq<Byte>, p: nat)
    requires local != [] && NoCollision(local, mine, ComparedBytes(|local|, p))
    ensures var n, k := ComparedBytes(|local|, p), |local|;
            var g := Granted(RequestFor(Some(local), p), Some(mine));
            && (g == k <==> k <= |mine| && local[k - n..] == mine[k - n..k])
            && (g == k || g == 0)
  {
    hide Md5Spec.Digest, Requested, Compared;
    RequestedSlices(local, mine, p);
  }

  /** What a transfer from offset g has to save: something of the uploader's length that, from
      offset 0, is the uploader's file, and else agrees with it from the compared bytes on and is
      the uploader's file exactly if the unchecked beginnings agree. */
  ghost predicate Correct(local: Option<seq<Byte>>, mine: seq<Byte>, p: nat, g: nat, saved: seq<Byte>) {
    && |saved| == |mine|
    && (g == 0 ==> saved == mine)
    && (g > 0 ==>
          && local.Some? && g == |local.value| <= |mine|
          && var from := g - ComparedBytes(g, p);
             saved[from..] == mine[from..] && (saved == mine <==> local.value[..from] == mine[..from]))
  }

  lemma ResumeIsCorrect(local: Option<seq<Byte>>, mine: seq<Byte>, p: nat, g: nat)
    requires Negotiated(local, mine, p, g)
    requires local.Some? ==> NoCollision(local.value, mine, ComparedBytes(|local.value|, p))
    ensures Correct(local, mine, p, g, SavedFile(local, mine, g))
  {
    hide Md5Spec.Digest, Granted, RequestFor, NoCollision;
    FromTheBeginning(local, mine);
    if g > 0 {
      SomethingIsThere(local, mine, p);
      GrantedIff(local.value, mine, p);
      assert SavedFile(local, mine, g) == local.value + mine[g..];
      Joined(local.value, mine, g - ComparedBytes(g, p));
    }
  }

  lemma SomethingIsThere(local: Option<seq<Byte>>, mine: seq<Byte>, p: nat)
    requires Granted(RequestFor(local, p), Some(mine)) > 0
    ensures local.Some? && local.value != []
  {
    hide Md5Spec.Digest;
  }

  lemma FromTheBeginning(local: Option<seq<Byte>>, mine: seq<Byte>)
    ensures SavedFile(local, mine, 0) == mine
  {
    assert [] + mine[0..] == mine;
  }

  lemma Joined(local: seq<Byte>, mine: seq<Byte>, from: nat)
    requires from <= |local| <= |mine| && local[from..] == mine[from..|local|]
    ensures var saved := local + mine[|local|..];
            saved[from..] == mine[from..] && (saved == mine <==> local[..from] == mine[..from])
  {
    var saved := local + mine[|local|..];
    assert mine[from..] == mine[from..|local|] + mine[|local|..];
    assert saved[from..] == local[from..] + mine[|local|..];
    assert mine == mine[..from] + mine[from..];
    assert saved == local[..from] + saved[from..];
    assert saved[..from] == local[..from];
  }

  /** With the whole partial file hashed, the saved file is always the uploader's. */
  lemma FullHashResumeIsExact(local: Option<seq<Byte>>, mine: seq<Byte>, p: nat, g: nat)
    requires Negotiated(local, mine, p, g)
    requires local.Some? ==> (p == 0 || p >= |local.value|) && NoCollision(local.value, mine, |local.value|)
    ensures SavedFile(local, mine, g) == mine
  {
    hide SavedFile, Granted, RequestFor;
    ResumeIsCorrect(local, mine, p, g);
    if g > 0 {
      assert local.value[..0] == mine[..0];
    }
  }

  /** With a shorter one it need not be: a different first byte goes unnoticed. */
  lemma UncheckedBeginningSurvives(tail: seq<Byte>, p: nat)
    requires 0 < p <= |tail|
    ensures var local, mine := [1] + tail, [2] + tail;
            var g := Granted(RequestFor(Some(local), p), Some(mine));
            g == |local| && SavedFile(Some(local), mine, g) == local
  {
    hide Md5Spec.Digest;
    var local, mine: seq<Byte> := [1] + tail, [2] + tail;
    assert local[|local| - p..] == mine[|local| - p..|local|];
    RequestedSlices(local, mine, p);
    assert Granted(RequestFor(Some(local), p), Some(mine)) == |local|;
    assert mine[|local|..] == [];
  }

  /** If the local file changed its size between request and header, the new file lacks the
      granted beginning, although its byte count starts there. */
  lemma ChangedLocalFileLosesTheBeginning(existing: Option<seq<Byte>>, mine: seq<Byte>, granted: nat)
    requires 0 < granted <= |mine|
    ensures var f := UploadSpec.Request(Some(mine), granted, -1);
            Base(existing, granted) + Target(f) == mine[granted..]
            <==> !(existing.Some? && |existing.value| == granted)
  {
    var t := Target(UploadSpec.Request(Some(mine), granted, -1));
    assert t == mine[granted..];
    assert [] + t == t;
  }
}
