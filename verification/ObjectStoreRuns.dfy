/**
  The filesystem store under concurrency. Puts, gets and deletes interleave at the level of single
  filesystem calls; any call may fail and any operation may stop between two calls. Names map to
  inodes, so a file that was unlinked while open can still be read and written. Putting a key again
  truncates the file its name leads to, whoever has it open.
 */
module ObjectStoreRuns {
  import opened ByteStrings
  import opened Wrappers
  import OS = ObjectStore

  datatype Env = Env(sha: Bytes -> string)

  datatype PutStage =
    | Opening(key: string, contentType: string)
    | Writing(key: string, contentType: string, inode: nat, seen: Bytes)
    | Flushed(key: string, metadata: OS.ObjectMetadata)
    | Failing(key: string)
    | Stored(key: string, metadata: OS.ObjectMetadata)

  datatype GetStage =
    | Headed(key: string, metadata: OS.ObjectMetadata)
    | Reading(key: string, metadata: OS.ObjectMetadata, inode: nat, bytes: Bytes)
    | Complete(key: string, metadata: OS.ObjectMetadata, bytes: Bytes)

  datatype State = State(
    names: map<string, nat>, inodes: map<nat, Bytes>, metadata: map<string, OS.MetadataFile>,
    puts: map<nat, PutStage>, gets: map<nat, GetStage>,
    owner: map<nat, string>,   // history: the key each inode was created for
    starts: map<string, nat>)  // history: how often each key was put

  const INITIAL := State(map[], map[], map[], map[], map[], map[], map[])

  datatype Label =
    | StartPut(put: nat, key: string, contentType: string)
    | CreateFile(put: nat, inode: nat)
    | WriteChunk(put: nat, chunk: Bytes, written: nat)
    | Flush(put: nat)
    | TouchMetadata(put: nat)
    | WriteMetadata(put: nat, reported: bool)
    | Fail(put: nat)
    | Cleanup(put: nat)
    | StopPut(put: nat)
    | UnlinkObject(key: string)
    | UnlinkMetadata(key: string)
    | Head(get: nat, key: string)
    | Open(get: nat)
    | Read(get: nat, size: nat)
    | StopGet(get: nat)

  function Move(s: State, p: nat, stage: PutStage): State {
    s.(puts := s.puts[p := stage])
  }

  function Zeros(n: nat): Bytes {
    seq(n, _ => 0)
  }

  /** Writing at an offset: what was there before is overwritten, a gap is filled with zeros. */
  function WriteAt(content: Bytes, offset: nat, chunk: Bytes): Bytes {
    if offset > |content| then content + Zeros(offset - |content|) + chunk
    else content[..offset] + chunk + (if offset + |chunk| < |content| then content[offset + |chunk|..] else [])
  }

  /** `create`: a new file, or the file that the name leads to, emptied. */
  function Create(s: State, p: nat, key: string, contentType: string, inode: nat): State {
    if key in s.names then
      Move(s.(inodes := s.inodes[s.names[key] := []]), p, Writing(key, contentType, s.names[key], []))
    else if inode in s.inodes then s
    else
      Move(s.(names := s.names[key := inode], inodes := s.inodes[inode := []], owner := s.owner[inode := key]),
           p, Writing(key, contentType, inode, []))
  }

  function Write(s: State, p: nat, q: PutStage, chunk: Bytes, written: nat): State
    requires q.Writing?
  {
    if q.inode !in s.inodes then s
    else
      var n := if written < |chunk| then written else |chunk|;
      Move(s.(inodes := s.inodes[q.inode := WriteAt(s.inodes[q.inode], |q.seen|, chunk[..n])]), p,
           if n == |chunk| then q.(seen := q.seen + chunk) else Failing(q.key))
  }

  function NextPut(env: Env, s: State, p: nat, stage: PutStage, l: Label): State {
    match stage
    case Opening(key, contentType) =>
      if l.CreateFile? then Create(s, p, key, contentType, l.inode)
      else if l.Fail? then Move(s, p, Failing(key))
      else s
    case Writing(key, contentType, inode, seen) =>
      if l.WriteChunk? then Write(s, p, stage, l.chunk, l.written)
      else if l.Flush? then Move(s, p, Flushed(key, OS.ObjectMetadata(key, contentType, |seen|, env.sha(seen))))
      else if l.Fail? then Move(s, p, Failing(key))
      else s
    case Flushed(key, m) =>
      if l.TouchMetadata? then s.(metadata := s.metadata[key := OS.Corrupt])
      else if l.WriteMetadata? then
        Move(s.(metadata := s.metadata[key := OS.Good(m)]), p, if l.reported then Stored(key, m) else Failing(key))
      else if l.Fail? then Move(s, p, Failing(key))
      else s
    case Failing(key) =>
      if l.Cleanup? then s.(names := s.names - {key}, puts := s.puts - {p}) else s
    case Stored(_, _) => s
  }

  function Advance(s: State, g: nat, stage: GetStage): State {
    s.(gets := s.gets[g := stage])
  }

  function NextGet(s: State, stage: GetStage, l: Label): GetStage {
    match stage
    case Headed(key, m) => if l.Open? && key in s.names then Reading(key, m, s.names[key], []) else stage
    case Reading(key, m, inode, bytes) =>
      if l.Read? && inode in s.inodes then
        if |bytes| >= |s.inodes[inode]| then Complete(key, m, bytes)
        else
          var left := s.inodes[inode][|bytes|..];
          var n := if 0 < l.size < |left| then l.size else |left|;
          Reading(key, m, inode, bytes + left[..n])
      else stage
    case Complete(_, _, _) => stage
  }

  function PutOf(l: Label): Option<nat> {
    match l
    case CreateFile(p, _) => Some(p)
    case WriteChunk(p, _, _) => Some(p)
    case Flush(p) => Some(p)
    case TouchMetadata(p) => Some(p)
    case WriteMetadata(p, _) => Some(p)
    case Fail(p) => Some(p)
    case Cleanup(p) => Some(p)
    case _ => None
  }

  function Count(s: State, key: string): nat {
    if key in s.starts then s.starts[key] else 0
  }

  function NextOther(s: State, l: Label): State {
    match l
    case StartPut(p, key, contentType) =>
      if p in s.puts then s
      else s.(puts := s.puts[p := Opening(key, contentType)], starts := s.starts[key := Count(s, key) + 1])
    case StopPut(p) => s.(puts := s.puts - {p})
    case UnlinkObject(key) => s.(names := s.names - {key})
    case UnlinkMetadata(key) => s.(metadata := s.metadata - {key})
    case Head(g, key) =>
      if g !in s.gets && key in s.metadata && s.metadata[key].Good?
      then Advance(s, g, Headed(key, s.metadata[key].metadata)) else s
    case StopGet(g) => s.(gets := s.gets - {g})
    case Open(g) => if g in s.gets then Advance(s, g, NextGet(s, s.gets[g], l)) else s
    case Read(g, _) => if g in s.gets then Advance(s, g, NextGet(s, s.gets[g], l)) else s
    case _ => s
  }

  function Next(env: Env, s: State, l: Label): State {
    match PutOf(l)
    case Some(p) => if p in s.puts then NextPut(env, s, p, s.puts[p], l) else s
    case None => NextOther(s, l)
  }

  function Run(env: Env, s: State, labels: seq<Label>): State
    decreases |labels|
  {
    if labels == [] then s else Run(env, Next(env, s, labels[0]), labels[1..])
  }

  // ---------- whose file is whose ----------

  ghost predicate NamesOk(s: State) {
    && s.owner.Keys == s.inodes.Keys
    && (forall k :: k in s.names ==> s.names[k] in s.inodes && s.owner[s.names[k]] == k && k in s.starts)
    && (forall k :: k in s.metadata ==> k in s.starts)
    && (forall k :: k in s.starts ==> s.starts[k] > 0)
  }

  ghost predicate PutHasPlace(s: State, stage: PutStage) {
    stage.key in s.starts && (stage.Writing? ==>
                              stage.inode in s.inodes && stage.inode in s.owner && s.owner[stage.inode] == stage.key)
  }

  ghost predicate GetHasPlace(s: State, stage: GetStage) {
    stage.key in s.starts && (stage.Reading? ==>
                              stage.inode in s.inodes && stage.inode in s.owner && s.owner[stage.inode] == stage.key)
  }

  /** A key with two puts was put twice. */
  ghost predicate PutsCounted(s: State) {
    forall p, q :: p in s.puts && q in s.puts && p != q && s.puts[p].key == s.puts[q].key ==>
      Count(s, s.puts[p].key) > 1
  }

  ghost predicate Shape(s: State) {
    && NamesOk(s) && PutsCounted(s)
    && (forall p :: p in s.puts ==> PutHasPlace(s, s.puts[p]))
    && (forall g :: g in s.gets ==> GetHasPlace(s, s.gets[g]))
  }

  // ---------- keys that were put once ----------

  predicate Describes(env: Env, m: OS.ObjectMetadata, key: string, b: Bytes) {
    m.key == key && m.contentLength == |b| && m.sha256 == env.sha(b)
  }

  /** The put may still change what the key's name leads to, or its metadata. */
  predicate Active(stage: PutStage) {
    stage.Opening? || stage.Writing? || stage.Flushed?
  }

  ghost predicate NamedMatches(env: Env, s: State, key: string, m: OS.ObjectMetadata) {
    key in s.names ==> s.names[key] in s.inodes && Describes(env, m, key, s.inodes[s.names[key]])
  }

  ghost predicate Quiet(s: State, key: string) {
    forall p :: p in s.puts && Active(s.puts[p]) ==> s.puts[p].key != key
  }

  predicate HasMetadata(s: State, key: string) {
    key in s.metadata && s.metadata[key].Good?
  }

  ghost predicate PutOk(env: Env, s: State, stage: PutStage) {
    match stage
    case Opening(key, _) => key !in s.names && !HasMetadata(s, key)
    case Writing(key, _, inode, seen) =>
      inode in s.inodes && s.inodes[inode] == seen && (key in s.names ==> s.names[key] == inode) && !HasMetadata(s, key)
    case Flushed(key, m) => NamedMatches(env, s, key, m) && !HasMetadata(s, key)
    case Failing(_) => true
    case Stored(_, _) => true
  }

  /** Whatever has been read, or will be, is what the metadata describes. */
  ghost predicate GetOk(env: Env, s: State, stage: GetStage) {
    match stage
    case Headed(key, m) => Quiet(s, key) && NamedMatches(env, s, key, m)
    case Reading(key, m, inode, bytes) =>
      Quiet(s, key) && inode in s.inodes && Describes(env, m, key, s.inodes[inode]) && bytes <= s.inodes[inode]
    case Complete(key, m, bytes) => Describes(env, m, key, bytes)
  }

  ghost predicate MetadataOk(env: Env, s: State, key: string) {
    HasMetadata(s, key) ==> Quiet(s, key) && NamedMatches(env, s, key, s.metadata[key].metadata)
  }

  ghost predicate KeyPutsOk(env: Env, s: State, key: string) {
    forall p :: p in s.puts && s.puts[p].key == key ==> PutOk(env, s, s.puts[p])
  }

  ghost predicate KeyGetsOk(env: Env, s: State, key: string) {
    forall g :: g in s.gets && s.gets[g].key == key ==> GetOk(env, s, s.gets[g])
  }

  ghost predicate KeyOk(env: Env, s: State, key: string) {
    KeyPutsOk(env, s, key) && MetadataOk(env, s, key) && KeyGetsOk(env, s, key)
  }

  ghost predicate Inv(env: Env, s: State) {
    Shape(s) && forall k :: k in s.starts && s.starts[k] == 1 ==> KeyOk(env, s, k)
  }

  // ---------- a step concerns one key ----------

  ghost predicate SamePuts(s: State, t: State, key: string) {
    && (forall p :: p in t.puts && t.puts[p].key == key ==> p in s.puts && s.puts[p] == t.puts[p])
    && (forall p :: p in s.puts && s.puts[p].key == key ==> p in t.puts && t.puts[p] == s.puts[p])
  }

  ghost predicate SameGets(s: State, t: State, key: string) {
    forall g :: g in t.gets && t.gets[g].key == key ==> g in s.gets && s.gets[g] == t.gets[g]
  }

  ghost predicate SameFiles(s: State, t: State, key: string) {
    && (key in t.names <==> key in s.names) && (key in s.names ==> t.names[key] == s.names[key])
    && (forall i :: i in s.inodes && i in s.owner && s.owner[i] == key ==> i in t.inodes && t.inodes[i] == s.inodes[i])
  }

  /** Nothing about the key has changed. */
  ghost predicate Untouched(s: State, t: State, key: string) {
    && SamePuts(s, t, key) && SameGets(s, t, key) && SameFiles(s, t, key) && Count(t, key) == Count(s, key)
    && (key in t.metadata <==> key in s.metadata) && (key in s.metadata ==> t.metadata[key] == s.metadata[key])
  }

  lemma QuietKept(s: State, t: State, key: string)
    requires SamePuts(s, t, key) && Quiet(s, key)
    ensures Quiet(t, key)
  {}

  lemma UntouchedPut(env: Env, s: State, t: State, key: string, stage: PutStage)
    requires Shape(s) && Untouched(s, t, key) && stage.key == key && PutHasPlace(s, stage) && PutOk(env, s, stage)
    ensures PutOk(env, t, stage)
  {}

  lemma UntouchedGet(env: Env, s: State, t: State, key: string, stage: GetStage)
    requires Shape(s) && Untouched(s, t, key) && stage.key == key && GetHasPlace(s, stage) && GetOk(env, s, stage)
    ensures GetOk(env, t, stage)
  {
    if !stage.Complete? {
      QuietKept(s, t, key);
    }
  }

  lemma UntouchedKeyOk(env: Env, s: State, t: State, key: string)
    requires Shape(s) && Untouched(s, t, key) && KeyOk(env, s, key)
    ensures KeyOk(env, t, key)
  {
    forall p | p in t.puts && t.puts[p].key == key ensures PutOk(env, t, t.puts[p]) {
      UntouchedPut(env, s, t, key, s.puts[p]);
    }
    forall g | g in t.gets && t.gets[g].key == key ensures GetOk(env, t, t.gets[g]) {
      UntouchedGet(env, s, t, key, s.gets[g]);
    }
    if HasMetadata(s, key) {
      QuietKept(s, t, key);
    }
  }

  /** A step that leaves every other key alone keeps the invariant if it keeps it for its own. */
  lemma StepKeeps(env: Env, s: State, t: State, key: string)
    requires Inv(env, s) && Shape(t) && (forall k :: k != key ==> Untouched(s, t, k))
    requires Count(t, key) == 1 ==> KeyOk(env, t, key)
    ensures Inv(env, t)
  {
    forall k | k in t.starts && t.starts[k] == 1 ensures KeyOk(env, t, k) {
      if k != key {
        assert Untouched(s, t, k) && Count(s, k) == 1;
        UntouchedKeyOk(env, s, t, k);
      }
    }
  }

  // ---------- steps of a put ----------

  /** No file changes hands, and metadata changes under one key at most. */
  ghost predicate FilesKept(s: State, t: State, key: string) {
    && (forall i :: i in s.inodes && i in s.owner ==> i in t.inodes && i in t.owner && t.owner[i] == s.owner[i])
    && (forall k :: k != key ==> SameFiles(s, t, k))
    && (forall k :: k != key ==>
        (k in t.metadata <==> k in s.metadata) && (k in s.metadata ==> t.metadata[k] == s.metadata[k]))
  }

  /** A put that is still active has a key put once to itself: nobody reads it and there is no metadata yet. */
  lemma ActiveAlone(env: Env, s: State, p: nat)
    requires Inv(env, s) && p in s.puts && Active(s.puts[p]) && Count(s, s.puts[p].key) == 1
    ensures forall q :: q in s.puts && s.puts[q].key == s.puts[p].key ==> q == p
    ensures forall g :: g in s.gets && s.gets[g].key == s.puts[p].key ==> s.gets[g].Complete?
    ensures PutOk(env, s, s.puts[p]) && KeyGetsOk(env, s, s.puts[p].key)
  {
    assert PutHasPlace(s, s.puts[p]) && KeyOk(env, s, s.puts[p].key);
  }

  lemma PutStepShape(s: State, t: State, p: nat, stage: PutStage)
    requires Shape(s) && p in s.puts && stage.key == s.puts[p].key && FilesKept(s, t, stage.key) && NamesOk(t)
    requires t.puts == s.puts[p := stage] && t.gets == s.gets && t.starts == s.starts && PutHasPlace(t, stage)
    ensures Shape(t)
  {
    forall q | q in t.puts ensures PutHasPlace(t, t.puts[q]) {
      assert q != p ==> PutHasPlace(s, s.puts[q]);
    }
    forall g | g in t.gets ensures GetHasPlace(t, t.gets[g]) {
      assert GetHasPlace(s, s.gets[g]);
    }
    PutsStayCounted(s, t, p, stage);
  }

  lemma PutsStayCounted(s: State, t: State, p: nat, stage: PutStage)
    requires PutsCounted(s) && p in s.puts && stage.key == s.puts[p].key && t.puts == s.puts[p := stage]
    requires t.starts == s.starts
    ensures PutsCounted(t)
  {
    forall a, b | a in t.puts && b in t.puts && a != b && t.puts[a].key == t.puts[b].key
      ensures Count(t, t.puts[a].key) > 1
    {
      assert s.puts[a].key == t.puts[a].key && s.puts[b].key == t.puts[b].key;
    }
  }

  lemma PutStepUntouched(s: State, t: State, p: nat, stage: PutStage, key: string)
    requires p in s.puts && stage.key == s.puts[p].key && FilesKept(s, t, stage.key) && key != stage.key
    requires t.puts == s.puts[p := stage] && t.gets == s.gets && t.starts == s.starts
    ensures Untouched(s, t, key)
  {}

  lemma PutStepKeyOk(env: Env, s: State, t: State, p: nat, stage: PutStage)
    requires Inv(env, s) && p in s.puts && Active(s.puts[p]) && stage.key == s.puts[p].key && Count(s, stage.key) == 1
    requires t.puts == s.puts[p := stage] && t.gets == s.gets && PutOk(env, t, stage) && MetadataOk(env, t, stage.key)
    ensures KeyOk(env, t, stage.key)
  {
    ActiveAlone(env, s, p);
  }

  lemma PutStepKeeps(env: Env, s: State, t: State, p: nat, stage: PutStage)
    requires Inv(env, s) && p in s.puts && Active(s.puts[p]) && stage.key == s.puts[p].key
    requires FilesKept(s, t, stage.key) && NamesOk(t)
    requires t.puts == s.puts[p := stage] && t.gets == s.gets && t.starts == s.starts && PutHasPlace(t, stage)
    requires Count(s, stage.key) == 1 ==> PutOk(env, t, stage) && MetadataOk(env, t, stage.key)
    ensures Inv(env, t)
  {
    PutStepShape(s, t, p, stage);
    forall k | k != stage.key ensures Untouched(s, t, k) {
      PutStepUntouched(s, t, p, stage, k);
    }
    if Count(s, stage.key) == 1 {
      PutStepKeyOk(env, s, t, p, stage);
    }
    StepKeeps(env, s, t, stage.key);
  }

  lemma NewFileKept(s: State, t: State, p: nat, key: string, stage: PutStage, inode: nat)
    requires Shape(s) && key !in s.names && key in s.starts && inode !in s.inodes
    requires t == Move(s.(names := s.names[key := inode], inodes := s.inodes[inode := []],
                          owner := s.owner[inode := key]), p, stage)
    ensures FilesKept(s, t, key) && NamesOk(t)
  {
    assert t.owner.Keys == t.inodes.Keys;
    forall k | k in t.names ensures t.names[k] in t.inodes && t.owner[t.names[k]] == k {
      assert k != key ==> s.names[k] in s.inodes;
    }
    forall k | k != key ensures SameFiles(s, t, k) {
      assert k in s.names ==> t.names[k] == s.names[k];
    }
  }

  lemma NewFileKeeps(env: Env, s: State, t: State, p: nat, key: string, contentType: string, inode: nat)
    requires Inv(env, s) && p in s.puts && s.puts[p] == Opening(key, contentType) && key !in s.names
    requires inode !in s.inodes
    requires t == Create(s, p, key, contentType, inode)
    ensures Inv(env, t)
  {
    var stage := Writing(key, contentType, inode, []);
    assert PutHasPlace(s, s.puts[p]);
    NewFileKept(s, t, p, key, stage, inode);
    if Count(s, key) == 1 {
      ActiveAlone(env, s, p);
    }
    PutStepKeeps(env, s, t, p, stage);
  }

  lemma RewrittenKept(s: State, t: State, p: nat, key: string, stage: PutStage, inode: nat, content: Bytes)
    requires Shape(s) && inode in s.inodes && s.owner[inode] == key
    requires t == Move(s.(inodes := s.inodes[inode := content]), p, stage)
    ensures FilesKept(s, t, key) && NamesOk(t)
  {}

  lemma TruncateKeeps(env: Env, s: State, t: State, p: nat, key: string, contentType: string, inode: nat)
    requires Inv(env, s) && p in s.puts && s.puts[p] == Opening(key, contentType) && key in s.names
    requires t == Create(s, p, key, contentType, inode)
    ensures Inv(env, t)
  {
    var stage := Writing(key, contentType, s.names[key], []);
    assert PutHasPlace(s, s.puts[p]);
    RewrittenKept(s, t, p, key, stage, s.names[key], []);
    if Count(s, key) == 1 {
      ActiveAlone(env, s, p);
      assert false;
    }
    PutStepKeeps(env, s, t, p, stage);
  }

  lemma CreateKeeps(env: Env, s: State, p: nat, key: string, contentType: string, inode: nat)
    requires Inv(env, s) && p in s.puts && s.puts[p] == Opening(key, contentType)
    ensures Inv(env, Create(s, p, key, contentType, inode))
  {
    var t := Create(s, p, key, contentType, inode);
    if key in s.names {
      TruncateKeeps(env, s, t, p, key, contentType, inode);
    } else if inode !in s.inodes {
      NewFileKeeps(env, s, t, p, key, contentType, inode);
    }
  }

  lemma WriteAtEnd(content: Bytes, chunk: Bytes)
    ensures WriteAt(content, |content|, chunk) == content + chunk
  {}

  lemma WriteKeeps(env: Env, s: State, p: nat, chunk: Bytes, written: nat)
    requires Inv(env, s) && p in s.puts && s.puts[p].Writing?
    ensures Inv(env, Write(s, p, s.puts[p], chunk, written))
  {
    var q := s.puts[p];
    var t := Write(s, p, q, chunk, written);
    assert PutHasPlace(s, q);
    RewrittenKept(s, t, p, q.key, t.puts[p], q.inode, t.inodes[q.inode]);
    if Count(s, q.key) == 1 {
      ActiveAlone(env, s, p);
      WriteAtEnd(q.seen, chunk);
      assert chunk[..|chunk|] == chunk;
    }
    PutStepKeeps(env, s, t, p, t.puts[p]);
  }

  /** A put that touches neither names nor files. */
  lemma PutMoves(env: Env, s: State, t: State, p: nat, stage: PutStage)
    requires Inv(env, s) && p in s.puts && Active(s.puts[p]) && stage.key == s.puts[p].key && !stage.Writing?
    requires t == s.(metadata := t.metadata, puts := s.puts[p := stage])
    requires forall k :: k != stage.key ==>
      (k in t.metadata <==> k in s.metadata) && (k in s.metadata ==> t.metadata[k] == s.metadata[k])
    requires Count(s, stage.key) == 1 ==> PutOk(env, t, stage) && MetadataOk(env, t, stage.key)
    ensures Inv(env, t)
  {
    assert PutHasPlace(s, s.puts[p]);
    PutStepKeeps(env, s, t, p, stage);
  }

  lemma FailKeeps(env: Env, s: State, p: nat)
    requires Inv(env, s) && p in s.puts && Active(s.puts[p])
    ensures Inv(env, Move(s, p, Failing(s.puts[p].key)))
  {
    var key := s.puts[p].key;
    if Count(s, key) == 1 {
      ActiveAlone(env, s, p);
    }
    PutMoves(env, s, Move(s, p, Failing(key)), p, Failing(key));
  }

  lemma FlushKeeps(env: Env, s: State, p: nat)
    requires Inv(env, s) && p in s.puts && s.puts[p].Writing?
    ensures Inv(env, NextPut(env, s, p, s.puts[p], Flush(p)))
  {
    var q := s.puts[p];
    var stage := Flushed(q.key, OS.ObjectMetadata(q.key, q.contentType, |q.seen|, env.sha(q.seen)));
    if Count(s, q.key) == 1 {
      ActiveAlone(env, s, p);
    }
    PutMoves(env, s, Move(s, p, stage), p, stage);
  }

  lemma TouchKeeps(env: Env, s: State, p: nat)
    requires Inv(env, s) && p in s.puts && s.puts[p].Flushed?
    ensures Inv(env, s.(metadata := s.metadata[s.puts[p].key := OS.Corrupt]))
  {
    var key := s.puts[p].key;
    if Count(s, key) == 1 {
      ActiveAlone(env, s, p);
    }
    assert s.puts == s.puts[p := s.puts[p]];
    PutMoves(env, s, s.(metadata := s.metadata[key := OS.Corrupt]), p, s.puts[p]);
  }

  lemma MetadataKeeps(env: Env, s: State, p: nat, stage: PutStage)
    requires Inv(env, s) && p in s.puts && s.puts[p].Flushed? && !Active(stage) && stage.key == s.puts[p].key
    ensures Inv(env, Move(s.(metadata := s.metadata[stage.key := OS.Good(s.puts[p].metadata)]), p, stage))
  {
    if Count(s, stage.key) == 1 {
      ActiveAlone(env, s, p);
    }
    PutMoves(env, s, Move(s.(metadata := s.metadata[stage.key := OS.Good(s.puts[p].metadata)]), p, stage), p, stage);
  }

  lemma StartKeeps(env: Env, s: State, p: nat, key: string, contentType: string)
    requires Inv(env, s) && p !in s.puts
    ensures Inv(env, s.(puts := s.puts[p := Opening(key, contentType)], starts := s.starts[key := Count(s, key) + 1]))
  {
    var t := s.(puts := s.puts[p := Opening(key, contentType)], starts := s.starts[key := Count(s, key) + 1]);
    StartShape(s, t, p, key, contentType);
    forall k | k != key ensures Untouched(s, t, k) {
      StartUntouched(s, t, p, key, contentType, k);
    }
    if Count(t, key) == 1 {
      NewKey(env, s, t, p, key, contentType);
    }
    StepKeeps(env, s, t, key);
  }

  lemma StartShape(s: State, t: State, p: nat, key: string, contentType: string)
    requires Shape(s) && p !in s.puts
    requires t == s.(puts := s.puts[p := Opening(key, contentType)], starts := s.starts[key := Count(s, key) + 1])
    ensures Shape(t)
  {
    forall q | q in t.puts ensures PutHasPlace(t, t.puts[q]) {
      assert q != p ==> PutHasPlace(s, s.puts[q]);
    }
    forall g | g in t.gets ensures GetHasPlace(t, t.gets[g]) {
      assert GetHasPlace(s, s.gets[g]);
    }
    StartCounts(s, t, p, key, contentType);
  }

  lemma StartCounts(s: State, t: State, p: nat, key: string, contentType: string)
    requires Shape(s) && p !in s.puts
    requires t.puts == s.puts[p := Opening(key, contentType)] && t.starts == s.starts[key := Count(s, key) + 1]
    ensures PutsCounted(t)
  {
    forall a, b | a in t.puts && b in t.puts && a != b && t.puts[a].key == t.puts[b].key
      ensures Count(t, t.puts[a].key) > 1
    {
      assert a != p ==> PutHasPlace(s, s.puts[a]);
      assert b != p ==> PutHasPlace(s, s.puts[b]);
    }
  }

  lemma StartUntouched(s: State, t: State, p: nat, key: string, contentType: string, other: string)
    requires p !in s.puts && other != key
    requires t == s.(puts := s.puts[p := Opening(key, contentType)], starts := s.starts[key := Count(s, key) + 1])
    ensures Untouched(s, t, other)
  {}

  /** A key that was never put has no put, file, metadata or reader. */
  lemma NewKey(env: Env, s: State, t: State, p: nat, key: string, contentType: string)
    requires Shape(s) && p !in s.puts && key !in s.starts
    requires t == s.(puts := s.puts[p := Opening(key, contentType)], starts := s.starts[key := Count(s, key) + 1])
    ensures KeyOk(env, t, key)
  {
    forall q | q in s.puts ensures s.puts[q].key != key {
      assert PutHasPlace(s, s.puts[q]);
    }
    forall g | g in s.gets ensures s.gets[g].key != key {
      assert GetHasPlace(s, s.gets[g]);
    }
  }

  // ---------- other steps ----------

  /** Puts and names may go at any time. */
  ghost predicate Fewer(s: State, t: State) {
    && t == s.(puts := t.puts, names := t.names, metadata := t.metadata, gets := t.gets)
    && (forall p :: p in t.puts ==> p in s.puts && t.puts[p] == s.puts[p])
    && (forall k :: k in t.names ==> k in s.names && t.names[k] == s.names[k])
    && (forall k :: k in t.metadata ==> k in s.metadata && t.metadata[k] == s.metadata[k])
    && (forall g :: g in t.gets ==> g in s.gets && t.gets[g] == s.gets[g])
  }

  lemma FewerShape(s: State, t: State)
    requires Shape(s) && Fewer(s, t)
    ensures Shape(t)
  {
    forall p | p in t.puts ensures PutHasPlace(t, t.puts[p]) {
      assert PutHasPlace(s, s.puts[p]);
    }
    forall g | g in t.gets ensures GetHasPlace(t, t.gets[g]) {
      assert GetHasPlace(s, s.gets[g]);
    }
  }

  lemma FewerKeyOk(env: Env, s: State, t: State, key: string)
    requires Fewer(s, t) && KeyOk(env, s, key)
    ensures KeyOk(env, t, key)
  {
    forall p | p in t.puts && t.puts[p].key == key ensures PutOk(env, t, t.puts[p]) {
      assert PutOk(env, s, s.puts[p]);
    }
    forall g | g in t.gets && t.gets[g].key == key ensures GetOk(env, t, t.gets[g]) {
      assert GetOk(env, s, s.gets[g]);
    }
  }

  lemma FewerKeeps(env: Env, s: State, t: State)
    requires Inv(env, s) && Fewer(s, t)
    ensures Inv(env, t)
  {
    FewerShape(s, t);
    forall k | k in t.starts && t.starts[k] == 1 ensures KeyOk(env, t, k) {
      FewerKeyOk(env, s, t, k);
    }
  }

  /** A get may be at any stage that is in order. */
  lemma AdvanceKeeps(env: Env, s: State, g: nat, stage: GetStage)
    requires Inv(env, s) && GetHasPlace(s, stage) && (Count(s, stage.key) == 1 ==> GetOk(env, s, stage))
    requires g in s.gets ==> s.gets[g].key == stage.key
    ensures Inv(env, Advance(s, g, stage))
  {
    var t := Advance(s, g, stage);
    AdvanceShape(s, t, g, stage);
    forall k | k != stage.key ensures Untouched(s, t, k) {
      AdvanceUntouched(s, t, g, stage, k);
    }
    if Count(s, stage.key) == 1 {
      AdvanceKeyOk(env, s, t, g, stage);
    }
    StepKeeps(env, s, t, stage.key);
  }

  lemma AdvanceShape(s: State, t: State, g: nat, stage: GetStage)
    requires Shape(s) && GetHasPlace(s, stage) && t == Advance(s, g, stage)
    ensures Shape(t)
  {
    forall x | x in t.gets ensures GetHasPlace(t, t.gets[x]) {
      assert x != g ==> GetHasPlace(s, s.gets[x]);
    }
    forall p | p in t.puts ensures PutHasPlace(t, t.puts[p]) {
      assert PutHasPlace(s, s.puts[p]);
    }
  }

  lemma AdvanceUntouched(s: State, t: State, g: nat, stage: GetStage, key: string)
    requires t == Advance(s, g, stage) && key != stage.key && (g in s.gets ==> s.gets[g].key == stage.key)
    ensures Untouched(s, t, key)
  {}

  lemma AdvanceKeyOk(env: Env, s: State, t: State, g: nat, stage: GetStage)
    requires KeyOk(env, s, stage.key) && GetOk(env, s, stage) && t == Advance(s, g, stage)
    ensures KeyOk(env, t, stage.key)
  {
    forall x | x in t.gets && t.gets[x].key == stage.key ensures GetOk(env, t, t.gets[x]) {
      assert GetOk(env, s, t.gets[x]);
    }
    forall p | p in t.puts && t.puts[p].key == stage.key ensures PutOk(env, t, t.puts[p]) {
      assert PutOk(env, s, s.puts[p]);
    }
  }

  lemma NextGetOk(env: Env, s: State, stage: GetStage, l: Label)
    requires GetOk(env, s, stage)
    ensures GetOk(env, s, NextGet(s, stage, l))
  {
    if stage.Reading? && l.Read? && |stage.bytes| >= |s.inodes[stage.inode]| {
      assert stage.bytes == s.inodes[stage.inode];
    }
  }

  lemma NextGetHasPlace(s: State, stage: GetStage, l: Label)
    requires NamesOk(s) && GetHasPlace(s, stage)
    ensures NextGet(s, stage, l).key == stage.key && GetHasPlace(s, NextGet(s, stage, l))
  {}

  lemma GetKeeps(env: Env, s: State, g: nat, l: Label)
    requires Inv(env, s) && g in s.gets
    ensures Inv(env, Advance(s, g, NextGet(s, s.gets[g], l)))
  {
    NextGetHasPlace(s, s.gets[g], l);
    if Count(s, s.gets[g].key) == 1 {
      assert KeyOk(env, s, s.gets[g].key);
      NextGetOk(env, s, s.gets[g], l);
    }
    AdvanceKeeps(env, s, g, NextGet(s, s.gets[g], l));
  }

  // ---------- every step, every run ----------

  lemma PutKeeps(env: Env, s: State, p: nat, l: Label)
    requires Inv(env, s) && p in s.puts
    ensures Inv(env, NextPut(env, s, p, s.puts[p], l))
  {
    var q := s.puts[p];
    if Active(q) && l.Fail? {
      FailKeeps(env, s, p);
    } else if q.Opening? && l.CreateFile? {
      CreateKeeps(env, s, p, q.key, q.contentType, l.inode);
    } else if q.Writing? && l.WriteChunk? {
      WriteKeeps(env, s, p, l.chunk, l.written);
    } else if q.Writing? && l.Flush? {
      FlushKeeps(env, s, p);
    } else if q.Flushed? && l.TouchMetadata? {
      TouchKeeps(env, s, p);
    } else if q.Flushed? && l.WriteMetadata? {
      MetadataKeeps(env, s, p, if l.reported then Stored(q.key, q.metadata) else Failing(q.key));
    } else if q.Failing? && l.Cleanup? {
      FewerKeeps(env, s, s.(names := s.names - {q.key}, puts := s.puts - {p}));
    }
  }

  lemma StopPutKeeps(env: Env, s: State, p: nat)
    requires Inv(env, s)
    ensures Inv(env, s.(puts := s.puts - {p}))
  {
    FewerKeeps(env, s, s.(puts := s.puts - {p}));
  }

  lemma StopGetKeeps(env: Env, s: State, g: nat)
    requires Inv(env, s)
    ensures Inv(env, s.(gets := s.gets - {g}))
  {
    FewerKeeps(env, s, s.(gets := s.gets - {g}));
  }

  lemma UnlinksKeep(env: Env, s: State, key: string)
    requires Inv(env, s)
    ensures Inv(env, s.(names := s.names - {key})) && Inv(env, s.(metadata := s.metadata - {key}))
  {
    FewerKeeps(env, s, s.(names := s.names - {key}));
    FewerKeeps(env, s, s.(metadata := s.metadata - {key}));
  }

  lemma HeadKeeps(env: Env, s: State, g: nat, key: string)
    requires Inv(env, s) && g !in s.gets && HasMetadata(s, key)
    ensures Inv(env, Advance(s, g, Headed(key, s.metadata[key].metadata)))
  {
    AdvanceKeeps(env, s, g, Headed(key, s.metadata[key].metadata));
  }

  lemma ReaderKeeps(env: Env, s: State, l: Label)
    requires Inv(env, s) && (l.Head? || l.Open? || l.Read? || l.StopGet?)
    ensures Inv(env, NextOther(s, l))
  {
    if l.Head? {
      if l.get !in s.gets && HasMetadata(s, l.key) {
        HeadKeeps(env, s, l.get, l.key);
      }
    } else if l.StopGet? {
      StopGetKeeps(env, s, l.get);
    } else if l.get in s.gets {
      GetKeeps(env, s, l.get, l);
    }
  }

  lemma OtherKeeps(env: Env, s: State, l: Label)
    requires Inv(env, s)
    ensures Inv(env, NextOther(s, l))
  {
    if l.Head? || l.Open? || l.Read? || l.StopGet? {
      ReaderKeeps(env, s, l);
    } else if l.StartPut? || l.StopPut? {
      StartOrStopKeeps(env, s, l);
    } else if l.UnlinkObject? || l.UnlinkMetadata? {
      UnlinksKeep(env, s, l.key);
    }
  }

  lemma StartOrStopKeeps(env: Env, s: State, l: Label)
    requires Inv(env, s) && (l.StartPut? || l.StopPut?)
    ensures Inv(env, NextOther(s, l))
  {
    if l.StopPut? {
      assert NextOther(s, l) == s.(puts := s.puts - {l.put});
      StopPutKeeps(env, s, l.put);
    } else if l.put in s.puts {
      assert NextOther(s, l) == s;
    } else {
      StartKeeps(env, s, l.put, l.key, l.contentType);
    }
  }

  lemma NextKeeps(env: Env, s: State, l: Label)
    requires Inv(env, s)
    ensures Inv(env, Next(env, s, l))
  {
    match PutOf(l)
    case Some(p) => if p in s.puts { PutKeeps(env, s, p, l); }
    case None => OtherKeeps(env, s, l);
  }

  lemma {:induction false} RunKeeps(env: Env, s: State, labels: seq<Label>)
    requires Inv(env, s)
    ensures Inv(env, Run(env, s, labels))
    decreases |labels|
  {
    if labels != [] {
      NextKeeps(env, s, labels[0]);
      RunKeeps(env, Next(env, s, labels[0]), labels[1..]);
    }
  }

  /**
    In every run, whatever fails and whatever else happens meanwhile, a get that reads to the end has
    exactly the bytes its metadata describes, unless its key was put a second time.
   */
  lemma CompleteGetMatches(env: Env, labels: seq<Label>, g: nat)
    requires var s := Run(env, INITIAL, labels); g in s.gets && s.gets[g].Complete? && Count(s, s.gets[g].key) <= 1
    ensures var got := Run(env, INITIAL, labels).gets[g];
      got.metadata.key == got.key && got.metadata.contentLength == |got.bytes|
        && got.metadata.sha256 == env.sha(got.bytes)
  {
    var s := Run(env, INITIAL, labels);
    RunKeeps(env, INITIAL, labels);
    assert GetHasPlace(s, s.gets[g]);
  }

  // ---------- a put that fails, an object that is deleted ----------

  /** A put that has failed takes the object's name away and is over. */
  lemma CleanedUp(env: Env, s: State, p: nat, key: string)
    requires p in s.puts && s.puts[p] == Failing(key)
    ensures Next(env, s, Cleanup(p)) == s.(names := s.names - {key}, puts := s.puts - {p})
  {}

  /** Until the put has written the metadata whole, or when they are deleted, nobody gets past them. */
  lemma NobodyReads(env: Env, s: State, p: nat, key: string, g: nat)
    requires p in s.puts && s.puts[p].Flushed? && s.puts[p].key == key
    ensures var t := Next(env, s, TouchMetadata(p)); t.names == s.names && Next(env, t, Head(g, key)) == t
    ensures var t := Next(env, s, UnlinkMetadata(key)); t.names == s.names && Next(env, t, Head(g, key)) == t
  {
    assert Next(env, s, TouchMetadata(p)) == s.(metadata := s.metadata[key := OS.Corrupt]);
    assert Next(env, s, UnlinkMetadata(key)) == s.(metadata := s.metadata - {key});
  }

  /** An object without its name is not opened, but a reader that has it open reads on. */
  lemma UnlinkedIsNotOpened(env: Env, s: State, key: string, g: nat, size: nat)
    requires g in s.gets && s.gets[g].key == key
    ensures var t := Next(env, s, UnlinkObject(key));
      && t.inodes == s.inodes && t.gets == s.gets
      && (s.gets[g].Headed? ==> Next(env, t, Open(g)).gets == s.gets)
      && (s.gets[g].Reading? ==> Next(env, t, Read(g, size)).gets == Next(env, s, Read(g, size)).gets)
  {
    var t := s.(names := s.names - {key});
    assert Next(env, s, UnlinkObject(key)) == t;
    if s.gets[g].Headed? {
      assert Next(env, t, Open(g)) == Advance(t, g, s.gets[g]);
    } else {
      assert NextGet(t, s.gets[g], Read(g, size)) == NextGet(s, s.gets[g], Read(g, size));
    }
  }

  // ---------- an undisturbed put ----------

  lemma RunFirst(env: Env, s: State, l: Label, rest: seq<Label>)
    ensures Run(env, s, [l] + rest) == Run(env, Next(env, s, l), rest)
  {
    assert ([l] + rest)[1..] == rest;
  }

  lemma RunThree(env: Env, s: State, a: Label, b: Label, c: Label, rest: seq<Label>)
    ensures Run(env, s, [a, b, c] + rest) == Run(env, Next(env, Next(env, Next(env, s, a), b), c), rest)
  {
    assert [a, b, c] + rest == [a] + ([b] + ([c] + rest));
    RunFirst(env, s, a, [b] + ([c] + rest));
    RunFirst(env, Next(env, s, a), b, [c] + rest);
    RunFirst(env, Next(env, Next(env, s, a), b), c, rest);
  }

  function MetadataFor(env: Env, key: string, contentType: string, bytes: Bytes): OS.ObjectMetadata {
    OS.ObjectMetadata(key, contentType, |bytes|, env.sha(bytes))
  }

  /** A put has written its only chunk. */
  function WrittenState(key: string, contentType: string, bytes: Bytes): State {
    State(map[key := 0], map[0 := bytes], map[], map[0 := Writing(key, contentType, 0, bytes)], map[], map[0 := key],
          map[key := 1])
  }

  /** It has finished, and a reader has seen its metadata. */
  function HeadedState(env: Env, key: string, contentType: string, bytes: Bytes): State {
    var m := MetadataFor(env, key, contentType, bytes);
    WrittenState(key, contentType, bytes).(
      metadata := map[key := OS.Good(m)], puts := map[0 := Stored(key, m)], gets := map[0 := Headed(key, m)])
  }

  function WritingLabels(key: string, contentType: string, bytes: Bytes): seq<Label> {
    [StartPut(0, key, contentType), CreateFile(0, 0), WriteChunk(0, bytes, |bytes|)]
  }

  lemma PutWrites(env: Env, key: string, contentType: string, bytes: Bytes, rest: seq<Label>)
    ensures Run(env, INITIAL, WritingLabels(key, contentType, bytes) + rest)
         == Run(env, WrittenState(key, contentType, bytes), rest)
  {
    var a := Next(env, INITIAL, StartPut(0, key, contentType));
    assert a == State(map[], map[], map[], map[0 := Opening(key, contentType)], map[], map[], map[key := 1]);
    var b := Next(env, a, CreateFile(0, 0));
    assert b == State(map[key := 0], map[0 := []], map[], map[0 := Writing(key, contentType, 0, [])], map[],
                      map[0 := key], map[key := 1]);
    assert bytes[..|bytes|] == bytes && WriteAt([], 0, bytes) == bytes && [] + bytes == bytes;
    assert Next(env, b, WriteChunk(0, bytes, |bytes|)) == WrittenState(key, contentType, bytes);
    RunThree(env, INITIAL, StartPut(0, key, contentType), CreateFile(0, 0), WriteChunk(0, bytes, |bytes|), rest);
  }

  lemma PutEnds(env: Env, key: string, contentType: string, bytes: Bytes, rest: seq<Label>)
    ensures Run(env, WrittenState(key, contentType, bytes), [Flush(0), WriteMetadata(0, true), Head(0, key)] + rest)
         == Run(env, HeadedState(env, key, contentType, bytes), rest)
  {
    FlushStep(env, key, contentType, bytes);
    MetadataStep(env, key, contentType, bytes);
    HeadStep(env, key, contentType, bytes);
    RunThree(env, WrittenState(key, contentType, bytes), Flush(0), WriteMetadata(0, true), Head(0, key), rest);
  }

  function FlushedState(env: Env, key: string, contentType: string, bytes: Bytes): State {
    WrittenState(key, contentType, bytes).(
      puts := map[0 := Flushed(key, MetadataFor(env, key, contentType, bytes))])
  }

  lemma FlushStep(env: Env, key: string, contentType: string, bytes: Bytes)
    ensures Next(env, WrittenState(key, contentType, bytes), Flush(0)) == FlushedState(env, key, contentType, bytes)
  {}

  lemma MetadataStep(env: Env, key: string, contentType: string, bytes: Bytes)
    ensures Next(env, FlushedState(env, key, contentType, bytes), WriteMetadata(0, true))
         == HeadedState(env, key, contentType, bytes).(gets := map[])
  {}

  lemma HeadStep(env: Env, key: string, contentType: string, bytes: Bytes)
    ensures Next(env, HeadedState(env, key, contentType, bytes).(gets := map[]), Head(0, key))
         == HeadedState(env, key, contentType, bytes)
  {}

  /** The state while the reader reads. */
  function ReadingState(env: Env, key: string, contentType: string, bytes: Bytes, read: Bytes): State {
    HeadedState(env, key, contentType, bytes).(
      gets := map[0 := Reading(key, MetadataFor(env, key, contentType, bytes), 0, read)])
  }

  function ReadState(env: Env, key: string, contentType: string, bytes: Bytes): State {
    HeadedState(env, key, contentType, bytes).(
      gets := map[0 := Complete(key, MetadataFor(env, key, contentType, bytes), bytes)])
  }

  lemma GetReads(env: Env, key: string, contentType: string, bytes: Bytes)
    ensures Run(env, HeadedState(env, key, contentType, bytes), [Open(0), Read(0, |bytes|), Read(0, 1)])
         == ReadState(env, key, contentType, bytes)
  {
    var rest: seq<Label> := [];
    OpenStep(env, key, contentType, bytes);
    if bytes == [] {
      EndStep(env, key, contentType, bytes, 0);
      assert Next(env, ReadState(env, key, contentType, bytes), Read(0, 1)) == ReadState(env, key, contentType, bytes);
    } else {
      ReadStep(env, key, contentType, bytes);
      EndStep(env, key, contentType, bytes, 1);
    }
    RunThree(env, HeadedState(env, key, contentType, bytes), Open(0), Read(0, |bytes|), Read(0, 1), rest);
    assert [Open(0), Read(0, |bytes|), Read(0, 1)] + rest == [Open(0), Read(0, |bytes|), Read(0, 1)];
  }

  lemma OpenStep(env: Env, key: string, contentType: string, bytes: Bytes)
    ensures Next(env, HeadedState(env, key, contentType, bytes), Open(0))
         == ReadingState(env, key, contentType, bytes, [])
  {}

  lemma ReadStep(env: Env, key: string, contentType: string, bytes: Bytes)
    requires bytes != []
    ensures Next(env, ReadingState(env, key, contentType, bytes, []), Read(0, |bytes|))
         == ReadingState(env, key, contentType, bytes, bytes)
  {
    assert [] + bytes[0..][..|bytes|] == bytes;
  }

  lemma EndStep(env: Env, key: string, contentType: string, bytes: Bytes, size: nat)
    ensures Next(env, ReadingState(env, key, contentType, bytes, bytes), Read(0, size))
         == ReadState(env, key, contentType, bytes)
  {}

  /** Undisturbed, a put stores exactly its bytes and type, and a get after it reads exactly those. */
  lemma PutThenGet(env: Env, key: string, contentType: string, bytes: Bytes) returns (labels: seq<Label>)
    ensures var s := Run(env, INITIAL, labels);
      var m := OS.ObjectMetadata(key, contentType, |bytes|, env.sha(bytes));
      && 0 in s.puts && s.puts[0] == Stored(key, m)
      && 0 in s.gets && s.gets[0] == Complete(key, m, bytes)
      && key in s.names && s.names[key] in s.inodes && s.inodes[s.names[key]] == bytes
      && key in s.metadata && s.metadata[key] == OS.Good(m)
  {
    var last := [Open(0), Read(0, |bytes|), Read(0, 1)];
    var second := [Flush(0), WriteMetadata(0, true), Head(0, key)] + last;
    labels := WritingLabels(key, contentType, bytes) + second;
    PutWrites(env, key, contentType, bytes, second);
    PutEnds(env, key, contentType, bytes, last);
    GetReads(env, key, contentType, bytes);
  }

  // ---------- why the second put matters ----------

  /** The second put has created its file, which the reader then opens. */
  function TruncatedState(env: Env, key: string): State {
    var m := MetadataFor(env, key, "", [1]);
    HeadedState(env, key, "", [1]).(
      inodes := map[0 := []], puts := map[0 := Stored(key, m), 1 := Writing(key, "", 0, [])],
      gets := map[0 := Reading(key, m, 0, [])], starts := map[key := 2])
  }

  function RestartedState(env: Env, key: string): State {
    var m := MetadataFor(env, key, "", [1]);
    HeadedState(env, key, "", [1]).(
      puts := map[0 := Stored(key, m), 1 := Opening(key, "")], starts := map[key := 2])
  }

  lemma RestartStep(env: Env, key: string)
    ensures Next(env, HeadedState(env, key, "", [1]), StartPut(1, key, "")) == RestartedState(env, key)
  {}

  lemma TruncateStep(env: Env, key: string)
    ensures Next(env, RestartedState(env, key), CreateFile(1, 0))
         == TruncatedState(env, key).(gets := map[0 := Headed(key, MetadataFor(env, key, "", [1]))])
  {}

  lemma OpenTruncated(env: Env, key: string)
    ensures Next(env, TruncatedState(env, key).(gets := map[0 := Headed(key, MetadataFor(env, key, "", [1]))]), Open(0))
         == TruncatedState(env, key)
  {}

  lemma SecondPutTruncates(env: Env, key: string, rest: seq<Label>)
    ensures Run(env, HeadedState(env, key, "", [1]), [StartPut(1, key, ""), CreateFile(1, 0), Open(0)] + rest)
         == Run(env, TruncatedState(env, key), rest)
  {
    RestartStep(env, key);
    TruncateStep(env, key);
    OpenTruncated(env, key);
    RunThree(env, HeadedState(env, key, "", [1]), StartPut(1, key, ""), CreateFile(1, 0), Open(0), rest);
  }

  lemma ReadTruncated(env: Env, key: string)
    ensures Next(env, TruncatedState(env, key), Read(0, 1))
         == TruncatedState(env, key).(gets := map[0 := Complete(key, MetadataFor(env, key, "", [1]), [])])
  {}

  lemma ReadsNothing(env: Env, key: string)
    ensures Run(env, TruncatedState(env, key), [Read(0, 1)])
         == TruncatedState(env, key).(gets := map[0 := Complete(key, MetadataFor(env, key, "", [1]), [])])
  {
    ReadTruncated(env, key);
    RunFirst(env, TruncatedState(env, key), Read(0, 1), []);
  }

  /** Putting any key twice is enough: a reader between the two gets nothing under metadata that promises a byte. */
  lemma SecondPutBreaksGets(env: Env, key: string) returns (labels: seq<Label>)
    ensures var s := Run(env, INITIAL, labels);
      && 0 in s.gets && s.gets[0].Complete? && s.gets[0].key == key && Count(s, key) == 2
      && s.gets[0].metadata.contentLength != |s.gets[0].bytes|
  {
    var last := [Read(0, 1)];
    var third := [StartPut(1, key, ""), CreateFile(1, 0), Open(0)] + last;
    var second := [Flush(0), WriteMetadata(0, true), Head(0, key)] + third;
    labels := WritingLabels(key, "", [1]) + second;
    PutWrites(env, key, "", [1], second);
    PutEnds(env, key, "", [1], third);
    SecondPutTruncates(env, key, last);
    ReadsNothing(env, key);
  }
}
