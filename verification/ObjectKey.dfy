/** Object keys: workspace-scoped slash-separated paths, and the key under which a document ends up. */
module ObjectKey {
  import opened Wrappers
  import opened Text
  import opened Uuids

  predicate IsSegment(s: string) {
    s != "" && s != "." && s != ".." && !Contains(s, '\\') && !Contains(s, '\0')
  }

  predicate IsCanonicalRelativePath(value: string) {
    && value != "" && value[0] != '/' && value[|value| - 1] != '/'
    && var parts := Split(value, '/'); forall i :: 0 <= i < |parts| ==> IsSegment(parts[i])
  }

  /** `None` stands for the source's invalid-key error. */
  function New(workspace: Uuid, prefix: string, name: string): Option<string> {
    if IsCanonicalRelativePath(prefix) && IsCanonicalRelativePath(name)
    then Some(Join(["workspaces", Format(workspace)] + Split(prefix, '/') + Split(name, '/'), '/'))
    else None
  }

  function Parse(value: string): Option<string> {
    if value == "" || !IsCanonicalRelativePath(value) then None
    else
      var parts := Split(value, '/');
      if |parts| < 4 || parts[0] != "workspaces" || Uuids.Parse(parts[1]).None? then None
      else Some(value)
  }

  /** What the parser accepts, segment by segment; no accepted key can step out of its directory. */
  lemma ParsesExactly(value: string)
    ensures var parts := Split(value, '/');
      Parse(value) == Some(value) <==>
        && |parts| >= 4 && parts[0] == "workspaces" && Uuids.Parse(parts[1]).Some?
        && forall i :: 0 <= i < |parts| ==>
             parts[i] != "" && parts[i] != "." && parts[i] != ".."
             && forall j :: 0 <= j < |parts[i]| ==> parts[i][j] != '\\' && parts[i][j] != '\0'
    ensures Parse(value) == Some(value) || Parse(value) == None
  {
    var parts := Split(value, '/');
    if value == "" {
      assert parts == [""];
    } else if forall i :: 0 <= i < |parts| ==> IsSegment(parts[i]) {
      JoinSplit(value, '/');
      JoinEnds(parts);
    }
  }

  predicate HasSameWorkspace(a: string, b: string) {
    var x, y := Split(a, '/'), Split(b, '/');
    (if |x| > 1 then Some(x[1]) else None) == (if |y| > 1 then Some(y[1]) else None)
  }

  lemma {:induction false} JoinEnds(parts: seq<string>)
    requires parts != [] && forall i :: 0 <= i < |parts| ==> IsSegment(parts[i]) && !Contains(parts[i], '/')
    ensures var s := Join(parts, '/'); s != "" && s[0] != '/' && s[|s| - 1] != '/'
  {
    assert parts[0][0] != '/';
    if |parts| == 1 {
      assert parts[0][|parts[0]| - 1] != '/';
    } else {
      JoinEnds(parts[1..]);
    }
  }

  lemma UuidSegment(u: Uuid)
    ensures IsSegment(Format(u)) && !Contains(Format(u), '/')
  {
    FormatChars(u);
  }

  /** Every constructed key is valid and splits into exactly the parts it was built from. */
  lemma NewIsValid(workspace: Uuid, prefix: string, name: string)
    requires New(workspace, prefix, name).Some?
    ensures var k := New(workspace, prefix, name).value;
      && Parse(k) == Some(k)
      && Split(k, '/') == ["workspaces", Format(workspace)] + Split(prefix, '/') + Split(name, '/')
  {
    var parts := ["workspaces", Format(workspace)] + Split(prefix, '/') + Split(name, '/');
    UuidSegment(workspace);
    forall i | 0 <= i < |parts| ensures IsSegment(parts[i]) && !Contains(parts[i], '/') {
      if i == 0 {
        assert forall j :: 0 <= j < |parts[0]| ==> parts[0][j] != '/' && parts[0][j] != '\\' && parts[0][j] != '\0';
      }
    }
    SplitJoin(parts, '/');
    JoinEnds(parts);
    ParseFormat(workspace);
  }

  // ---------- document keys ----------

  datatype Owner = EvidenceSubmission(id: Uuid) | Policy(id: Uuid)

  datatype DocumentIdentity = DocumentIdentity(owner: Owner, documentId: Uuid)

  function OwnerFolder(owner: Owner): string {
    if owner.EvidenceSubmission? then "evidence-submissions" else "policies"
  }

  function DocumentPrefix(owner: Owner, leaf: Uuid): string {
    OwnerFolder(owner) + "/" + Format(owner.id) + "/documents/" + Format(leaf)
  }

  /** The key in the evidence store. */
  function FinalKey(workspace: Uuid, identity: DocumentIdentity, filename: string): Option<string> {
    New(workspace, DocumentPrefix(identity.owner, identity.documentId), filename)
  }

  /** The key in the quarantine store; `upload` is drawn afresh for every upload. */
  function StagedKey(workspace: Uuid, owner: Owner, upload: Uuid, filename: string): Option<string> {
    New(workspace, DocumentPrefix(owner, upload), filename)
  }

  lemma SplitPrefix(owner: Owner, leaf: Uuid)
    ensures Split(DocumentPrefix(owner, leaf), '/') == [OwnerFolder(owner), Format(owner.id), "documents", Format(leaf)]
  {
    var a, b, c, d := OwnerFolder(owner), Format(owner.id), "documents", Format(leaf);
    UuidSegment(owner.id);
    UuidSegment(leaf);
    FoldersAreSegments(owner);
    SplitFour(a, b, c, d, '/');
    PrefixInParts(a, b, d);
  }

  /** Prefix and name go through the same check, and the key keeps all their segments. */
  lemma NewExists(workspace: Uuid, prefix: string, name: string)
    ensures New(workspace, prefix, name).Some? <==>
      forall s :: s in Split(prefix, '/') + Split(name, '/') ==>
        s != "" && s != "." && s != ".." && forall j :: 0 <= j < |s| ==> s[j] != '\\' && s[j] != '\0'
  {
    CanonicalIff(prefix);
    CanonicalIff(name);
  }

  lemma CanonicalIff(value: string)
    ensures IsCanonicalRelativePath(value) <==>
      forall s :: s in Split(value, '/') ==>
        s != "" && s != "." && s != ".." && forall j :: 0 <= j < |s| ==> s[j] != '\\' && s[j] != '\0'
  {
    var parts := Split(value, '/');
    if value == "" {
      assert "" in parts;
    } else if forall s :: s in parts ==> IsSegment(s) {
      JoinSplit(value, '/');
      JoinEnds(parts);
    }
  }

  lemma FoldersAreSegments(owner: Owner)
    ensures IsSegment(OwnerFolder(owner)) && !Contains(OwnerFolder(owner), '/')
    ensures IsSegment("documents") && !Contains("documents", '/')
  {}

  lemma PrefixInParts(a: string, b: string, d: string)
    ensures a + "/" + b + "/documents/" + d == a + ['/'] + (b + ['/'] + ("documents" + ['/'] + d))
  {
    assert "/documents/" == ['/'] + ("documents" + ['/']);
  }

  lemma DocumentKeyParts(workspace: Uuid, owner: Owner, leaf: Uuid, filename: string)
    requires New(workspace, DocumentPrefix(owner, leaf), filename).Some?
    ensures Split(New(workspace, DocumentPrefix(owner, leaf), filename).value, '/')
         == ["workspaces", Format(workspace), OwnerFolder(owner), Format(owner.id), "documents", Format(leaf)]
            + Split(filename, '/')
  {
    NewIsValid(workspace, DocumentPrefix(owner, leaf), filename);
    SplitPrefix(owner, leaf);
  }

  lemma FinalKeyParts(workspace: Uuid, identity: DocumentIdentity, filename: string)
    requires FinalKey(workspace, identity, filename).Some?
    ensures Split(FinalKey(workspace, identity, filename).value, '/')
         == ["workspaces", Format(workspace),
             if identity.owner.EvidenceSubmission? then "evidence-submissions" else "policies",
             Format(identity.owner.id), "documents", Format(identity.documentId)] + Split(filename, '/')
  {
    DocumentKeyParts(workspace, identity.owner, identity.documentId, filename);
  }

  /** A staged key differs in the fifth segment only, which names the upload. */
  lemma StagedKeyParts(workspace: Uuid, owner: Owner, upload: Uuid, filename: string)
    requires StagedKey(workspace, owner, upload, filename).Some?
    ensures Split(StagedKey(workspace, owner, upload, filename).value, '/')
         == ["workspaces", Format(workspace), if owner.EvidenceSubmission? then "evidence-submissions" else "policies",
             Format(owner.id), "documents", Format(upload)] + Split(filename, '/')
  {
    DocumentKeyParts(workspace, owner, upload, filename);
  }

  /** Final keys tell documents apart: nothing that went into a key is lost. */
  lemma FinalKeyInjective(w1: Uuid, i1: DocumentIdentity, f1: string, w2: Uuid, i2: DocumentIdentity, f2: string)
    requires FinalKey(w1, i1, f1).Some? && FinalKey(w1, i1, f1) == FinalKey(w2, i2, f2)
    ensures w1 == w2 && i1 == i2 && f1 == f2
  {
    FinalKeyParts(w1, i1, f1);
    FinalKeyParts(w2, i2, f2);
    var p := Split(FinalKey(w1, i1, f1).value, '/');
    assert p[1] == Format(w1) == Format(w2) && p[3] == Format(i1.owner.id) == Format(i2.owner.id);
    assert p[5] == Format(i1.documentId) == Format(i2.documentId)
      && p[2] == OwnerFolder(i1.owner) == OwnerFolder(i2.owner);
    assert p[6..] == Split(f1, '/') == Split(f2, '/');
    FormatInjective(w1, w2);
    FormatInjective(i1.owner.id, i2.owner.id);
    FormatInjective(i1.documentId, i2.documentId);
    JoinSplit(f1, '/');
    JoinSplit(f2, '/');
  }

  /** Whether a document can be finalized depends on the segments of its file name only. */
  lemma FinalKeyExists(workspace: Uuid, identity: DocumentIdentity, filename: string)
    ensures FinalKey(workspace, identity, filename).Some? <==> IsCanonicalRelativePath(filename)
    ensures FinalKey(workspace, identity, filename).Some? <==>
      forall s :: s in Split(filename, '/') ==>
        s != "" && s != "." && s != ".." && forall j :: 0 <= j < |s| ==> s[j] != '\\' && s[j] != '\0'
  {
    PrefixCanonical(identity.owner, identity.documentId);
    CanonicalIff(filename);
  }

  lemma PrefixCanonical(owner: Owner, leaf: Uuid)
    ensures IsCanonicalRelativePath(DocumentPrefix(owner, leaf))
  {
    var s := DocumentPrefix(owner, leaf);
    SplitPrefix(owner, leaf);
    UuidSegment(owner.id);
    UuidSegment(leaf);
    FoldersAreSegments(owner);
    var parts := Split(s, '/');
    JoinSplit(s, '/');
    JoinEnds(parts);
  }

  // ---------- the workspace of a key ----------

  /** The key was built for this workspace. */
  ghost predicate BuiltFor(key: string, workspace: Uuid) {
    exists prefix, name :: New(workspace, prefix, name) == Some(key)
  }

  lemma BuiltForSegment(key: string, workspace: Uuid)
    requires BuiltFor(key, workspace)
    ensures |Split(key, '/')| > 1 && Split(key, '/')[1] == Format(workspace)
  {
    var prefix, name :| New(workspace, prefix, name) == Some(key);
    NewIsValid(workspace, prefix, name);
  }

  /** The check compares the workspace segments, whatever the other key is. */
  lemma SameWorkspaceAsBuilt(a: string, key: string, workspace: Uuid)
    requires BuiltFor(key, workspace)
    ensures HasSameWorkspace(a, key) <==> |Split(a, '/')| > 1 && Split(a, '/')[1] == Format(workspace)
    ensures HasSameWorkspace(key, a) <==> |Split(a, '/')| > 1 && Split(a, '/')[1] == Format(workspace)
  {
    BuiltForSegment(key, workspace);
  }

  /** Two constructed keys pass the check exactly when they were built for the same workspace. */
  lemma SameWorkspaceIff(a: string, v: Uuid, b: string, w: Uuid)
    requires BuiltFor(a, v) && BuiltFor(b, w)
    ensures HasSameWorkspace(a, b) <==> v == w
  {
    SameWorkspaceAsBuilt(a, b, w);
    BuiltForSegment(a, v);
    if HasSameWorkspace(a, b) {
      FormatInjective(v, w);
    }
  }

  /** A promotion passes it exactly when the document belongs to the workspace of the upload. */
  lemma StagedAndFinalShareWorkspace(
      v: Uuid, owner: Owner, upload: Uuid, stagedName: string, w: Uuid, identity: DocumentIdentity, filename: string)
    requires StagedKey(v, owner, upload, stagedName).Some? && FinalKey(w, identity, filename).Some?
    ensures HasSameWorkspace(StagedKey(v, owner, upload, stagedName).value, FinalKey(w, identity, filename).value)
       <==> v == w
  {
    SameWorkspaceIff(StagedKey(v, owner, upload, stagedName).value, v, FinalKey(w, identity, filename).value, w);
  }
}
