/**
  The filesystem object store. Every filesystem call may fail; the `Faults` records say which do,
  and how far a broken write got. SHA-256 is any incremental hash: `Lawful` is all that is asked of it.
 */
module ObjectStore {
  import opened ByteStrings
  import opened Numbers
  import opened Wrappers
  import OK = ObjectKey

  const READ_BUFFER := 65536

  datatype Hasher<!S> = Hasher(init: S, absorb: (S, Bytes) -> S, finish: S -> string)

  ghost predicate Lawful<S(!new)>(h: Hasher<S>) {
    && h.absorb(h.init, []) == h.init
    && (forall s, a, b, c {:trigger h.absorb(h.absorb(s, a), b), h.absorb(s, c)} ::
          c == a + b ==> h.absorb(h.absorb(s, a), b) == h.absorb(s, c))
  }

  function Sha<S>(h: Hasher<S>, b: Bytes): string {
    h.finish(h.absorb(h.init, b))
  }

  datatype StorageError = InvalidKey | NotFound | Filesystem | StreamRead | MetadataPersistence | Integrity

  datatype ObjectMetadata = ObjectMetadata(key: string, contentType: string, contentLength: int, sha256: string)

  /** One item of a byte stream, which may end with an error of its own. */
  datatype Chunk = Data(bytes: Bytes) | Broken(error: StorageError)

  predicate Intact(chunks: seq<Chunk>) {
    forall i :: 0 <= i < |chunks| ==> chunks[i].Data?
  }

  /** The bytes of a stream up to its first error. */
  function Concat(chunks: seq<Chunk>): Bytes {
    if chunks == [] || chunks[0].Broken? then [] else chunks[0].bytes + Concat(chunks[1..])
  }

  lemma {:induction false} ConcatLast(chunks: seq<Chunk>, c: Chunk)
    requires Intact(chunks) && c.Data?
    ensures Concat(chunks + [c]) == Concat(chunks) + c.bytes
  {
    if chunks == [] {
      assert (chunks + [c])[1..] == [];
    } else {
      assert (chunks + [c])[1..] == chunks[1..] + [c];
      ConcatLast(chunks[1..], c);
      assert chunks[0].bytes + (Concat(chunks[1..]) + c.bytes) == Concat(chunks) + c.bytes;
    }
  }

  lemma ConcatTake(chunks: seq<Chunk>, i: nat)
    requires i < |chunks| && Intact(chunks[..i]) && chunks[i].Data?
    ensures Intact(chunks[..i + 1])
    ensures Concat(chunks[..i + 1]) == Concat(chunks[..i]) + chunks[i].bytes
  {
    assert chunks[..i + 1] == chunks[..i] + [chunks[i]];
    ConcatLast(chunks[..i], chunks[i]);
  }

  lemma {:induction false} ConcatPrefix(chunks: seq<Chunk>, i: nat)
    requires i <= |chunks| && Intact(chunks)
    ensures |Concat(chunks[..i])| <= |Concat(chunks)|
    decreases |chunks|
  {
    if i > 0 {
      ConcatPrefix(chunks[1..], i - 1);
      assert chunks[..i][1..] == chunks[1..][..i - 1];
    }
  }

  lemma NextChunk(chunks: seq<Chunk>, i: nat)
    requires i < |chunks| && Intact(chunks[..i]) && chunks[i].Data?
    ensures Intact(chunks[..i + 1])
    ensures Concat(chunks[..i + 1]) == Concat(chunks[..i]) + chunks[i].bytes
    ensures Intact(chunks) ==> |Concat(chunks[..i])| + |chunks[i].bytes| <= |Concat(chunks)|
  {
    ConcatTake(chunks, i);
    if Intact(chunks) {
      ConcatPrefix(chunks, i + 1);
    }
  }

  // ---------- digesting ----------

  class ObjectDigest<S(!new)> {
    const hasher: Hasher<S>
    var sha256: S
    var contentLength: int

    /** The digest has seen exactly these bytes. */
    ghost predicate Saw(b: Bytes)
      reads this
    {
      sha256 == hasher.absorb(hasher.init, b) && contentLength == |b| && |b| <= U64_MAX
    }

    constructor (h: Hasher<S>)
      requires Lawful(h)
      ensures hasher == h && Saw([])
    {
      hasher, sha256, contentLength := h, h.init, 0;
    }

    method Update(chunk: Bytes, ghost seen: Bytes) returns (r: Result<(), StorageError>)
      requires Lawful(hasher) && Saw(seen)
      modifies this
      ensures r.Ok? <==> |seen| + |chunk| <= U64_MAX
      ensures r.Ok? ==> Saw(seen + chunk)
      ensures r.Err? ==> r == Err(StreamRead) && Saw(seen)
    {
      if contentLength + |chunk| > U64_MAX {
        return Err(StreamRead);
      }
      contentLength := contentLength + |chunk|;
      assert hasher.absorb(hasher.absorb(hasher.init, seen), chunk) == hasher.absorb(hasher.init, seen + chunk);
      sha256 := hasher.absorb(sha256, chunk);
      r := Ok(());
    }

    method Finish(ghost seen: Bytes) returns (length: int, sha: string)
      requires Saw(seen)
      ensures length == |seen| && sha == Sha(hasher, seen)
    {
      length, sha := contentLength, hasher.finish(sha256);
    }
  }

  // ---------- the store ----------

  /** A metadata file that parses, or one that was left half written. */
  datatype MetadataFile = Good(metadata: ObjectMetadata) | Corrupt

  datatype WriteFaults = WriteFaults(create: bool, failAt: Option<nat>, partial: nat, flush: bool)

  /** How far writing the metadata file got; only the last outcome is reported as a success. */
  datatype MetadataWrite = NotTouched | HalfWritten | WrittenUnreported | Written

  datatype PutFaults = PutFaults(
    objectDir: bool, write: WriteFaults, metadataDir: bool, metadataWrite: MetadataWrite, cleanup: bool)

  datatype ReadFaults = ReadFaults(metadataRead: bool, open: bool, failAt: Option<nat>, pieces: nat -> nat)

  /** No filesystem call of the put fails. */
  predicate NoPutFault(f: PutFaults) {
    && f.objectDir && f.write.create && f.write.failAt.None? && f.write.flush && f.metadataDir
    && f.metadataWrite.Written?
  }

  /** The two maps agree outside `key`. */
  ghost predicate SameElsewhere<T>(a: map<string, T>, b: map<string, T>, key: string) {
    forall k :: k != key ==> (k in a <==> k in b) && (k in a ==> a[k] == b[k])
  }

  class FilesystemObjectStore<S(!new)> {
    const hasher: Hasher<S>
    var objects: map<string, Bytes>
    var metadata: map<string, MetadataFile>

    constructor (h: Hasher<S>)
      requires Lawful(h)
      ensures hasher == h && objects == map[] && metadata == map[]
    {
      hasher, objects, metadata := h, map[], map[];
    }

    ghost predicate Describes(m: ObjectMetadata, key: string, b: Bytes) {
      m.key == key && m.contentLength == |b| && m.sha256 == Sha(hasher, b)
    }

    /** Whatever can be read back is what its metadata says. */
    ghost predicate Consistent()
      reads this
    {
      forall k :: k in metadata && metadata[k].Good? && k in objects ==> Describes(metadata[k].metadata, k, objects[k])
    }

    /** There is an object with metadata, of a length that fits. */
    predicate Readable(key: string)
      reads this
    {
      key in metadata && metadata[key].Good? && key in objects && |objects[key]| <= U64_MAX
    }

    predicate HoldsSome(key: string)
      reads this
    {
      key in objects && objects[key] != []
    }

    method RemoveObject(key: string, ok: bool) returns (r: Result<(), StorageError>)
      modifies this`objects
      ensures objects == (if ok then old(objects) - {key} else old(objects))
      ensures ok || key !in old(objects) ==> r == Ok(())
      ensures !ok && key in old(objects) ==> r == Err(Filesystem)
    {
      if key !in objects {
        assert objects - {key} == objects;
        return Ok(());
      }
      if !ok {
        return Err(Filesystem);
      }
      objects := objects - {key};
      r := Ok(());
    }

    /** `write_all` of one chunk: a failing write may have appended part of it. */
    method Append(key: string, bytes: Bytes, ok: bool, partial: nat)
      requires key in objects
      modifies this`objects
      ensures SameElsewhere(objects, old(objects), key)
      ensures ok ==> objects == old(objects)[key := old(objects)[key] + bytes]
    {
      var n := if ok || partial > |bytes| then |bytes| else partial;
      assert bytes[..|bytes|] == bytes;
      objects := objects[key := objects[key] + bytes[..n]];
    }

    /** Write one chunk and add it to the digest. */
    method WriteChunk(key: string, bytes: Bytes, ok: bool, partial: nat, digest: ObjectDigest<S>, ghost before: Bytes)
      returns (r: Result<(), StorageError>)
      requires key in objects && Lawful(digest.hasher) && digest.Saw(before)
      modifies this`objects, digest
      ensures SameElsewhere(objects, old(objects), key)
      ensures r.Ok? ==> objects == old(objects)[key := old(objects)[key] + bytes] && digest.Saw(before + bytes)
      ensures r.Err? ==> r.error == Filesystem || r.error == StreamRead
      ensures ok && |before| + |bytes| <= U64_MAX ==> r.Ok?
    {
      Append(key, bytes, ok, partial);
      if !ok {
        return Err(Filesystem);
      }
      r := digest.Update(bytes, before);
    }

    method WriteObjectStream(key: string, chunks: seq<Chunk>, f: WriteFaults)
      returns (r: Result<(int, string), StorageError>)
      requires Lawful(hasher)
      modifies this`objects
      ensures SameElsewhere(objects, old(objects), key)
      ensures r.Err? ==> r.error == Filesystem || r.error == StreamRead || Broken(r.error) in chunks
      ensures r.Ok? ==>
        && f.create && Intact(chunks) && objects == old(objects)[key := Concat(chunks)]
        && r.value == (|Concat(chunks)|, Sha(hasher, Concat(chunks))) && |Concat(chunks)| <= U64_MAX
      ensures f.create && f.failAt.None? && f.flush && Intact(chunks) && |Concat(chunks)| <= U64_MAX ==> r.Ok?
    {
      if !f.create {
        return Err(Filesystem);
      }
      objects := objects[key := []];
      var digest := new ObjectDigest(hasher);
      ghost var before: Bytes := [];
      var i := 0;
      while i < |chunks|
        invariant 0 <= i <= |chunks| && Intact(chunks[..i]) && before == Concat(chunks[..i])
        invariant fresh(digest) && digest.hasher == hasher && digest.Saw(before)
        invariant objects == old(objects)[key := before]
      {
        if chunks[i].Broken? {
          return Err(chunks[i].error);
        }
        NextChunk(chunks, i);
        var written := WriteChunk(key, chunks[i].bytes, f.failAt != Some(i), f.partial, digest, before);
        if written.Err? {
          return Err(written.error);
        }
        before := before + chunks[i].bytes;
        i := i + 1;
      }
      assert chunks[..|chunks|] == chunks;
      if !f.flush {
        return Err(Filesystem);
      }
      var length, sha := digest.Finish(before);
      r := Ok((length, sha));
    }

    /**
      Success stores exactly the bytes of the stream with their own length and digest. A failure touches no other
      key; it leaves the metadata as it was, unreadable, or describing exactly the bytes of the whole stream.
     */
    method PutObject(key: string, contentType: string, chunks: seq<Chunk>, f: PutFaults)
      returns (r: Result<ObjectMetadata, StorageError>)
      requires Lawful(hasher)
      modifies this
      ensures SameElsewhere(objects, old(objects), key) && SameElsewhere(metadata, old(metadata), key)
      ensures r.Ok? ==>
        && Intact(chunks) && objects == old(objects)[key := Concat(chunks)]
        && Describes(r.value, key, Concat(chunks)) && r.value.contentType == contentType
        && metadata == old(metadata)[key := Good(r.value)]
      ensures r.Err? ==> r.error == Filesystem || r.error == StreamRead || Broken(r.error) in chunks
      ensures NoPutFault(f) && Intact(chunks) && |Concat(chunks)| <= U64_MAX ==> r.Ok?
      ensures old(Consistent()) && !(key in old(metadata) && old(metadata)[key].Good?) ==> Consistent()
      ensures r.Err? ==>
        || metadata == old(metadata) || metadata == old(metadata)[key := Corrupt]
        || (Intact(chunks) && key in metadata && metadata == old(metadata)[key := metadata[key]] && metadata[key].Good?
            && Describes(metadata[key].metadata, key, Concat(chunks))
              && metadata[key].metadata.contentType == contentType)
    {
      if !f.objectDir {
        return Err(Filesystem);
      }
      var written := WriteObjectStream(key, chunks, f.write);
      if written.Err? {
        var _ := RemoveObject(key, f.cleanup);
        return Err(written.error);
      }
      var m := ObjectMetadata(key, contentType, written.value.0, written.value.1);
      if !f.metadataDir {
        return Err(Filesystem);
      }
      if f.metadataWrite.HalfWritten? {
        metadata := metadata[key := Corrupt];
      } else if !f.metadataWrite.NotTouched? {
        metadata := metadata[key := Good(m)];
      }
      if !f.metadataWrite.Written? {
        var _ := RemoveObject(key, f.cleanup);
        return Err(Filesystem);
      }
      r := Ok(m);
    }

    method HeadObject(key: string, readable: bool) returns (r: Result<ObjectMetadata, StorageError>)
      ensures r != Err(Integrity) && r != Err(InvalidKey)
      ensures r.Ok? <==> key in metadata && readable && metadata[key].Good?
      ensures r.Ok? ==> r.value == metadata[key].metadata
      ensures key !in metadata ==> r == Err(NotFound)
    {
      if key !in metadata {
        return Err(NotFound);
      }
      if !readable {
        return Err(Filesystem);
      }
      match metadata[key]
      case Corrupt => r := Err(MetadataPersistence);
      case Good(m) => r := Ok(m);
    }

    /** The chunks of a stream that reads to the end are the object's bytes, in buffers of at most 64 KiB. */
    method GetObject(key: string, f: ReadFaults) returns (r: Result<(ObjectMetadata, seq<Chunk>), StorageError>)
      ensures r != Err(Integrity) && r != Err(InvalidKey)
      ensures r.Ok? ==> key in metadata && metadata[key] == Good(r.value.0) && key in objects
      ensures r.Ok? <==> key in metadata && metadata[key].Good? && f.metadataRead && key in objects && f.open
      ensures r.Ok? && f.failAt.None? ==> Intact(r.value.1)
      ensures r.Ok? && Intact(r.value.1) ==> Concat(r.value.1) == objects[key]
      ensures r.Ok? ==> forall i :: 0 <= i < |r.value.1| && r.value.1[i].Broken? ==> r.value.1[i].error == Filesystem
      ensures r.Ok? ==> forall i :: 0 <= i < |r.value.1| && r.value.1[i].Data? ==>
        0 < |r.value.1[i].bytes| <= READ_BUFFER
      ensures r.Ok? && Intact(r.value.1) && Consistent() ==> Describes(r.value.0, key, Concat(r.value.1))
    {
      var head := HeadObject(key, f.metadataRead);
      if head.Err? {
        return Err(head.error);
      }
      if key !in objects {
        return Err(NotFound);
      }
      if !f.open {
        return Err(Filesystem);
      }
      var content := objects[key];
      var chunks: seq<Chunk> := [];
      var offset := 0;
      while offset < |content|
        invariant 0 <= offset <= |content|
        invariant Intact(chunks) && Concat(chunks) == content[..offset] && key in objects && content == objects[key]
        invariant forall i :: 0 <= i < |chunks| ==> 0 < |chunks[i].bytes| <= READ_BUFFER
      {
        if f.failAt == Some(|chunks|) {
          chunks := chunks + [Broken(Filesystem)];
          assert chunks[|chunks| - 1].Broken?;
          return Ok((head.value, chunks));
        }
        // A read returns some bytes, at most the buffer and at most what is left.
        var wanted := f.pieces(|chunks|);
        var most := if |content| - offset < READ_BUFFER then |content| - offset else READ_BUFFER;
        var n := if 0 < wanted <= most then wanted else most;
        ConcatLast(chunks, Data(content[offset..offset + n]));
        assert content[..offset] + content[offset..offset + n] == content[..offset + n];
        chunks := chunks + [Data(content[offset..offset + n])];
        offset := offset + n;
      }
      assert content[..|content|] == content;
      // The read that finds the end of the file may fail as well.
      if f.failAt == Some(|chunks|) {
        chunks := chunks + [Broken(Filesystem)];
        assert chunks[|chunks| - 1].Broken?;
      }
      r := Ok((head.value, chunks));
    }

    method DeleteObject(key: string, objectRemoved: bool, metadataRemoved: bool) returns (r: Result<(), StorageError>)
      modifies this
      ensures SameElsewhere(objects, old(objects), key) && SameElsewhere(metadata, old(metadata), key)
      ensures r.Ok? ==> key !in objects && key !in metadata
      ensures forall k :: k in objects ==> k in old(objects) && objects[k] == old(objects[k])
      ensures forall k :: k in metadata ==> k in old(metadata) && metadata[k] == old(metadata[k])
      ensures objectRemoved && metadataRemoved ==> r.Ok?
      ensures old(Consistent()) ==> Consistent()
    {
      var first := RemoveObject(key, objectRemoved);
      if first.Err? {
        return Err(first.error);
      }
      if key in metadata {
        if !metadataRemoved {
          return Err(Filesystem);
        }
        metadata := metadata - {key};
      }
      r := Ok(());
    }
  }

  // ---------- copying between stores ----------

  predicate SameContent(a: ObjectMetadata, b: ObjectMetadata) {
    a.contentType == b.contentType && a.contentLength == b.contentLength && a.sha256 == b.sha256
  }

  /**
    A copy never crosses workspaces. A successful copy leaves the source's very bytes at the destination under
    metadata that agrees with the source's; a failed one touches no other key. From a consistent source the
    integrity check fires only when an object that is not empty is copied onto itself: creating the destination
    truncates the file that is being read, so nothing is copied, and the check then deletes what is left.
   */
  method StreamCopyObject<S(!new)>(
      source: FilesystemObjectStore<S>, sourceKey: string,
      destination: FilesystemObjectStore<S>, destinationKey: string,
      reading: ReadFaults, writing: PutFaults, objectRemoved: bool, metadataRemoved: bool)
    returns (r: Result<ObjectMetadata, StorageError>)
    requires source.hasher == destination.hasher && Lawful(source.hasher)
    modifies destination
    ensures !OK.HasSameWorkspace(sourceKey, destinationKey) ==>
      r == Err(InvalidKey) && destination.objects == old(destination.objects)
        && destination.metadata == old(destination.metadata)
    ensures forall v, w :: OK.BuiltFor(sourceKey, v) && OK.BuiltFor(destinationKey, w) && v != w ==>
      r == Err(InvalidKey) && destination.objects == old(destination.objects)
        && destination.metadata == old(destination.metadata)
    ensures forall w :: OK.BuiltFor(sourceKey, w) && OK.BuiltFor(destinationKey, w) ==> r != Err(InvalidKey)
    ensures (OK.HasSameWorkspace(sourceKey, destinationKey) && (source == destination ==> sourceKey != destinationKey)
             && old(source.Consistent() && source.Readable(sourceKey)) && reading.metadataRead && reading.open
             && reading.failAt.None? && NoPutFault(writing)) ==> r.Ok?
    ensures SameElsewhere(destination.objects, old(destination.objects), destinationKey)
    ensures SameElsewhere(destination.metadata, old(destination.metadata), destinationKey)
    ensures r.Ok? ==>
      && sourceKey in old(source.metadata) && old(source.metadata)[sourceKey].Good?
      && var m := old(source.metadata)[sourceKey].metadata;
      && r.value.contentType == m.contentType && r.value.contentLength == m.contentLength && r.value.sha256 == m.sha256
      && sourceKey in old(source.objects) && destinationKey in destination.objects
      && destinationKey in destination.metadata && destination.metadata[destinationKey] == Good(r.value)
      && destination.Describes(r.value, destinationKey, destination.objects[destinationKey])
    ensures r.Ok? && (old(source.Consistent()) || !(source == destination && sourceKey == destinationKey)) ==>
      destination.objects[destinationKey] == old(source.objects)[sourceKey]
    ensures old(source.Consistent()) && r == Err(Integrity) ==>
      source == destination && sourceKey == destinationKey && old(source.HoldsSome(sourceKey))
    ensures (source == destination && sourceKey == destinationKey
             && old(source.Consistent() && source.HoldsSome(sourceKey))) ==> r.Err?
    ensures r == Err(Integrity) && objectRemoved && metadataRemoved ==>
      destinationKey !in destination.objects && destinationKey !in destination.metadata
  {
    forall v, w | OK.BuiltFor(sourceKey, v) && OK.BuiltFor(destinationKey, w)
      ensures OK.HasSameWorkspace(sourceKey, destinationKey) <==> v == w
    {
      OK.SameWorkspaceIff(sourceKey, v, destinationKey, w);
    }
    if !OK.HasSameWorkspace(sourceKey, destinationKey) {
      return Err(InvalidKey);
    }
    var got := source.GetObject(sourceKey, reading);
    if got.Err? {
      return Err(got.error);
    }
    var (m, chunks) := got.value;
    assert Broken(InvalidKey) !in chunks;
    if source == destination && sourceKey == destinationKey {
      // The stream is read only after the destination was created, which leaves it nothing to read.
      chunks := if reading.failAt == Some(0) then [Broken(Filesystem)] else [];
    }
    var copied := destination.PutObject(destinationKey, m.contentType, chunks, writing);
    if copied.Err? {
      return Err(copied.error);
    }
    if !SameContent(copied.value, m) {
      var _ := destination.DeleteObject(destinationKey, objectRemoved, metadataRemoved);
      return Err(Integrity);
    }
    r := copied;
  }
}
