/** Hashing a slice of a file, with the digest of a whole file cached in an attribute. */
module HashFile {
  import opened Machine
  import opened Md5Spec
  import opened Option
  import Md5Context

  const BUFFER_SIZE: nat := 0x4_0000

  // ----- what is asked for

  /** The slice a call names: with a positive len, the first len bytes, or len bytes from
      offset; otherwise the last offset bytes, or the whole file. None when it passes the end. */
  function Requested(content: seq<Byte>, len: int, offset: int): Option<seq<Byte>> {
    if len > |content| then None
    else if len > 0 then
      if offset <= 0 then Some(content[..len])
      else if offset + len > |content| then None
      else Some(content[offset..offset + len])
    else if 0 < offset < |content| then Some(content[|content| - offset..])
    else Some(content)
  }

  // ----- the cached whole-file digest

  /** The 28-byte attribute: size, digest and the low 32 bits of the modification time. */
  datatype CacheEntry = CacheEntry(size: int, digest: seq<Byte>, modTime: int)

  function EntryFor(content: seq<Byte>, modTime: int): CacheEntry {
    CacheEntry(|content|, Digest(content), modTime % TWO32)
  }

  datatype FileState = FileState(content: seq<Byte>, modTime: int, cache: Option<CacheEntry>) {
    predicate Hit(len: int, offset: int) {
      && offset == 0 && (len == 0 || len == |content|)
      && cache.Some? && cache.value.size == |content| && cache.value.modTime == modTime % TWO32
    }

    /** What hashing yields: the cached digest, or else that of the slice. */
    function Answer(len: int, offset: int): Option<seq<Byte>> {
      if Requested(content, len, offset).None? then None
      else if Hit(len, offset) then Some(cache.value.digest)
      else Some(Digest(Requested(content, len, offset).value))
    }

    /** An entry that would be used holds the digest of the present content. */
    predicate Coherent() {
      Hit(0, 0) ==> cache.value.digest == Digest(content)
    }
  }

  class FileNode {
    var content: seq<Byte>
    var modTime: int
    var readable: bool
    var cache: Option<CacheEntry>

    ghost function State(): FileState
      reads this
    {
      FileState(content, modTime, cache)
    }

    constructor (content: seq<Byte>, modTime: int)
      ensures State() == FileState(content, modTime, None) && readable
    {
      this.content, this.modTime, readable, cache := content, modTime, true, None;
    }

    /** One read: at most max bytes from pos; the device may deliver fewer, or fail. */
    method Read(pos: nat, max: int, delivered: int) returns (numRead: int, data: seq<Byte>)
      ensures numRead > 0 ==> numRead <= max && pos + numRead <= |content| && data == content[pos..pos + numRead]
      ensures numRead > 0 <==> delivered > 0 && max > 0 && pos < |content|
    {
      data := [];
      if max <= 0 || pos >= |content| {
        numRead := 0;
      } else if delivered <= 0 {
        numRead := delivered;
      } else {
        numRead := if delivered < max then delivered else max;
        numRead := if numRead < |content| - pos then numRead else |content| - pos;
        data := content[pos..pos + numRead];
      }
    }

    /** The read loop over length bytes from start; it fails if the shutdown flag is seen up, or
        if the reads end early. */
    method HashSlice(start: nat, length: nat, device: nat -> int, stop: nat -> bool)
      returns (ok: bool, hashed: int, digest: seq<Byte>)
      requires start + length <= |content|
      ensures ok ==> hashed == length && digest == Digest(content[start..start + length])
      ensures (forall k: nat :: device(k) > 0 && !stop(k)) ==> ok
    {
      hide Digest, CompressAll, Zeros, Md5Context.Context.Valid;
      ok, hashed, digest := false, 0, Zeros(16);
      var bytesLeft := length;
      var ctx := new Md5Context.Context();
      var turn := 0;
      while true
        invariant 0 <= bytesLeft == length - hashed && 0 <= hashed
        invariant ctx.Valid() && ctx.Message() == content[start..start + hashed]
        invariant fresh(ctx) && fresh(ctx.buf) && fresh(ctx.input)
        decreases bytesLeft
      {
        var numRead, data := Read(start + hashed, if bytesLeft < BUFFER_SIZE then bytesLeft else BUFFER_SIZE, device(turn));
        if numRead <= 0 {
          break;
        }
        SlicesJoin(content, start, start + hashed, start + hashed + numRead);
        hashed := hashed + numRead;
        if stop(turn) {
          return;
        }
        turn := turn + 1;
        ctx.Update(data);
        if numRead < bytesLeft {
          bytesLeft := bytesLeft - numRead;
        } else {
          bytesLeft := 0;
          break;
        }
      }
      if bytesLeft > 0 {
        return;   // the reads ended early
      }
      digest := ctx.Final();
      ok := true;
    }

    /** Hashes the requested slice. device(k) is what the k-th read delivers, stop(k) whether
        the shutdown flag is seen up after it. */
    method HashFileMD5(len: int, offset: int, device: nat -> int, stop: nat -> bool)
      returns (ok: bool, newLen: int, hashed: int, digest: seq<Byte>)
      modifies this`cache
      ensures ok ==> readable && Requested(content, len, offset).Some?
      ensures readable && Requested(content, len, offset).Some? && (forall k: nat :: device(k) > 0 && !stop(k)) ==> ok
      ensures newLen == if ok && len == 0 then |content| else len
      ensures ok ==> hashed == |Requested(content, len, offset).value|
      ensures ok ==> old(State().Answer(len, offset)) == Some(digest)
      ensures cache == if ok && offset == 0 && newLen == |content| && !old(State().Hit(len, offset))
                       then Some(EntryFor(content, modTime)) else old(cache)
    {
      hide Digest, Zeros;
      newLen, hashed, digest := len, 0, Zeros(16);
      if !readable || (len > 0 && |content| < len) {
        return false, newLen, hashed, digest;
      }
      if offset == 0 && (len == 0 || len == |content|) {
        if cache.Some? && cache.value.size == |content| && cache.value.modTime == modTime % TWO32 {
          newLen := if len == 0 then |content| else len;
          return true, newLen, |content|, cache.value.digest;
        }
      }
      var bytesLeft := if len > 0 then len else |content|;
      var pos := 0;
      if offset > 0 {
        if len > 0 {
          if offset + len > |content| {
            return false, newLen, hashed, digest;   // the slice passes the end
          }
          pos := offset;
        } else {
          // the last `offset` bytes
          if offset < |content| {
            pos := |content| - offset;
          }
          bytesLeft := if offset < |content| then offset else |content|;
        }
      }
      assert Requested(content, len, offset).value == content[pos..pos + bytesLeft];
      ok, hashed, digest := HashSlice(pos, bytesLeft, device, stop);
      if !ok {
        return false, newLen, hashed, digest;
      }
      newLen := if len == 0 then |content| else len;
      if offset == 0 && newLen == |content| {
        assert content[..newLen] == content;
        cache := Some(CacheEntry(|content|, digest, modTime % TWO32));
      }
    }
  }

  lemma SlicesJoin(s: seq<Byte>, a: nat, b: nat, c: nat)
    requires a <= b <= c <= |s|
    ensures s[a..b] + s[b..c] == s[a..c]
  {
  }

  // ----- agreement of the cache over any history of one file

  datatype FileOp = Modify(content: seq<Byte>, modTime: int) | HashWhole

  /** What an operation leaves behind; HashWhole is a successful HashFileMD5 with len 0, offset 0. */
  function Apply(s: FileState, op: FileOp): FileState {
    match op
    case Modify(content, modTime) => s.(content := content, modTime := modTime)
    case HashWhole => if s.Hit(0, 0) then s else s.(cache := Some(EntryFor(s.content, s.modTime)))
  }

  function Run(s: FileState, ops: seq<FileOp>): FileState
  {
    if ops == [] then s else Apply(Run(s, ops[..|ops| - 1]), ops[|ops| - 1])
  }

  /** Every version of the content the file had, with its time. */
  function Versions(s: FileState, ops: seq<FileOp>): (v: seq<(seq<Byte>, int)>)
    ensures |v| == |ops| + 1
  {
    if ops == [] then [(s.content, s.modTime)]
    else
      var s' := Run(s, ops);
      Versions(s, ops[..|ops| - 1]) + [(s'.content, s'.modTime)]
  }

  /** No two versions differ while agreeing on size and 32-bit time. */
  ghost predicate Determined(v: seq<(seq<Byte>, int)>) {
    forall i, j :: 0 <= i < |v| && 0 <= j < |v| && |v[i].0| == |v[j].0| && v[i].1 % TWO32 == v[j].1 % TWO32
      ==> v[i].0 == v[j].0
  }

  ghost predicate FromVersion(cache: Option<CacheEntry>, v: seq<(seq<Byte>, int)>) {
    cache.Some? ==> exists i :: 0 <= i < |v| && cache.value == EntryFor(v[i].0, v[i].1)
  }

  lemma {:induction false} CacheComesFromSomeVersion(s: FileState, ops: seq<FileOp>)
    requires s.cache.None?
    ensures FromVersion(Run(s, ops).cache, Versions(s, ops))
    ensures Versions(s, ops)[|ops|] == (Run(s, ops).content, Run(s, ops).modTime)
  {
    hide Digest;
    if ops != [] {
      var before := ops[..|ops| - 1];
      CacheComesFromSomeVersion(s, before);
      var v, w := Versions(s, before), Versions(s, ops);
      var c, d := Run(s, before).cache, Run(s, ops).cache;
      assert forall i :: 0 <= i < |v| ==> w[i] == v[i];
      if d == c && d.Some? {
        var i :| 0 <= i < |v| && c.value == EntryFor(v[i].0, v[i].1);
        assert d.value == EntryFor(w[i].0, w[i].1);
      } else if d.Some? {
        assert d.value == EntryFor(w[|ops|].0, w[|ops|].1);
      }
    }
  }

  /** While size and time determine the content, a cache hit agrees with hashing again. */
  lemma HitsAgreeWithRecomputing(s: FileState, ops: seq<FileOp>)
    requires s.cache.None? && Determined(Versions(s, ops))
    ensures Run(s, ops).Coherent()
  {
    hide Digest;
    CacheComesFromSomeVersion(s, ops);
    var t, v := Run(s, ops), Versions(s, ops);
    if t.Hit(0, 0) {
      var i :| 0 <= i < |v| && t.cache.value == EntryFor(v[i].0, v[i].1);
      assert v[|ops|].0 == v[i].0;
    }
  }

  /** Otherwise it need not: an edit that keeps size and time (modulo 2^32 seconds) is answered
      with the digest of the content it replaced. */
  lemma UnnoticedEditIsAnsweredFromTheCache(s: FileState, edited: seq<Byte>, modTime: int)
    requires s.cache.None? && |edited| == |s.content| && modTime % TWO32 == s.modTime % TWO32
    ensures var t := Run(s, [HashWhole, Modify(edited, modTime)]);
            t.Hit(0, 0) && t.content == edited && t.cache.value.digest == Digest(s.content)
  {
    hide Digest;
    var ops := [HashWhole, Modify(edited, modTime)];
    assert ops[..1] == [HashWhole] && ops[..1][..0] == [];
    assert Run(s, []) == s;
    assert Run(s, ops[..1]) == Apply(s, HashWhole);
    assert Run(s, ops) == Apply(Run(s, ops[..1]), ops[1]);
  }

  /** After the content was hashed and edited, a hit is right exactly if there is none (the size or
      the 32-bit time changed) or the digests agree. */
  lemma HitAfterEditIsRightIff(s: FileState, edited: seq<Byte>, modTime: int)
    requires s.cache == Some(EntryFor(s.content, s.modTime))
    ensures var t := Apply(s, Modify(edited, modTime));
            t.Answer(0, 0) == Some(Digest(edited))
            <==> |edited| != |s.content| || modTime % TWO32 != s.modTime % TWO32 || Digest(edited) == Digest(s.content)
  {
    hide Digest;
  }
}
