/**
  Stateless dynamic client registration (section 3.2.1 of RFC 7591): client ids that carry their own
  metadata under a keyed signature. HMAC, SHA-256, UTF-8, the JSON form of the metadata and the URL
  parser are arbitrary functions; `Lawful` lists all that is asked of them.
 */
module ClientRegistration {
  import opened ByteStrings
  import opened Wrappers
  import opened Text
  import opened Ordering
  import B = Base64Url

  datatype Url = Url(scheme: string, userInfo: string, host: Option<string>, port: Option<nat>, path: string,
                     query: Option<string>, fragment: Option<string>)

  datatype Meta = Meta(clientName: string, redirectUris: seq<string>)

  datatype Foreign = Foreign(
    hmac: (Bytes, string) -> Bytes,
    sha256: Bytes -> Bytes,
    toUtf8: string -> Bytes,
    fromUtf8: Bytes -> Option<string>,
    printMeta: Meta -> Bytes,
    parseMeta: Bytes -> Option<Meta>,
    parseUrl: string -> Option<Url>,
    printUrl: Url -> string)

  ghost predicate Lawful(f: Foreign) {
    && (forall m :: f.parseMeta(f.printMeta(m)) == Some(m))
    && (forall s :: f.fromUtf8(f.toUtf8(s)) == Some(s))
    && (forall b :: f.fromUtf8(b).Some? ==> f.toUtf8(f.fromUtf8(b).value) == b)
  }

  /** Printing a parsed URL without its port and parsing it again gives that URL. */
  ghost predicate UrlLawful(f: Foreign) {
    forall s :: f.parseUrl(s).Some? ==>
      var u := f.parseUrl(s).value.(port := None); f.parseUrl(f.printUrl(u)) == Some(u)
  }

  // ---------- key ring ----------

  datatype ConfiguredKey = ConfiguredKey(id: string, secret: string)

  datatype Registrar = Registrar(keys: map<string, Bytes>, activeKid: string)

  datatype KeyringError = Keyring

  predicate Usable(r: Registrar) {
    r.activeKid in r.keys
  }

  function DeriveKey(f: Foreign, secret: string): Bytes {
    f.sha256(f.toUtf8("proofplane:client-registration:v1:") + f.toUtf8(secret))
  }

  /** The position of the last key with this id. */
  predicate IsLast(keys: seq<ConfiguredKey>, i: int) {
    0 <= i < |keys| && forall j :: i < j < |keys| ==> keys[j].id != keys[i].id
  }

  function KeysOf(f: Foreign, configured: seq<ConfiguredKey>): map<string, Bytes> {
    if configured == [] then map[]
    else
      var last := configured[|configured| - 1];
      KeysOf(f, configured[..|configured| - 1])[last.id := DeriveKey(f, last.secret)]
  }

  lemma {:induction false} KeysHaveIds(f: Foreign, configured: seq<ConfiguredKey>, i: nat)
    requires i < |configured|
    ensures configured[i].id in KeysOf(f, configured)
    decreases |configured|
  {
    if i < |configured| - 1 {
      KeysHaveIds(f, configured[..|configured| - 1], i);
    }
  }

  lemma {:induction false} KeysComeFrom(f: Foreign, configured: seq<ConfiguredKey>, id: string) returns (i: nat)
    requires id in KeysOf(f, configured)
    ensures i < |configured| && configured[i].id == id
    decreases |configured|
  {
    i := |configured| - 1;
    if configured[i].id != id {
      i := KeysComeFrom(f, configured[..i], id);
    }
  }

  lemma {:induction false} LastKeyWins(f: Foreign, configured: seq<ConfiguredKey>, i: nat)
    requires IsLast(configured, i)
    ensures configured[i].id in KeysOf(f, configured)
    ensures KeysOf(f, configured)[configured[i].id] == DeriveKey(f, configured[i].secret)
    decreases |configured|
  {
    var n := |configured| - 1;
    if i < n {
      assert configured[n].id != configured[i].id;
      LastKeyWins(f, configured[..n], i);
    }
  }

  /** Later keys replace earlier ones of the same id; the active key must be among them. */
  method FromConfig(f: Foreign, configured: seq<ConfiguredKey>, activeKeyId: string)
    returns (r: Result<Registrar, KeyringError>)
    ensures r.Err? <==> forall i :: 0 <= i < |configured| ==> configured[i].id != activeKeyId
    ensures r.Ok? ==> Usable(r.value) && r.value.activeKid == activeKeyId
    ensures r.Ok? ==> forall id :: id in r.value.keys ==> exists i :: 0 <= i < |configured| && configured[i].id == id
    ensures r.Ok? ==> forall i :: IsLast(configured, i) ==>
      configured[i].id in r.value.keys
      && r.value.keys[configured[i].id]
         == f.sha256(f.toUtf8("proofplane:client-registration:v1:") + f.toUtf8(configured[i].secret))
  {
    var keys: map<string, Bytes> := map[];
    for n := 0 to |configured|
      invariant keys == KeysOf(f, configured[..n])
    {
      assert configured[..n + 1][..n] == configured[..n];
      keys := keys[configured[n].id := DeriveKey(f, configured[n].secret)];
    }
    assert configured[..|configured|] == configured;
    forall i | 0 <= i < |configured| ensures configured[i].id in keys {
      KeysHaveIds(f, configured, i);
    }
    forall id | id in keys ensures exists i :: 0 <= i < |configured| && configured[i].id == id {
      var i := KeysComeFrom(f, configured, id);
    }
    forall i | IsLast(configured, i) ensures keys[configured[i].id] == DeriveKey(f, configured[i].secret) {
      LastKeyWins(f, configured, i);
    }
    if activeKeyId !in keys {
      return Err(Keyring);
    }
    r := Ok(Registrar(keys, activeKeyId));
  }

  // ---------- redirect URIs ----------

  predicate IsLoopbackHttp(u: Url) {
    u.scheme == "http" && u.host.Some? && u.host.value in {"127.0.0.1", "localhost", "::1", "[::1]"}
  }

  function Normalize(f: Foreign, uri: string): string {
    match f.parseUrl(uri)
    case None => uri
    case Some(u) => if IsLoopbackHttp(u) then f.printUrl(u.(port := None)) else uri
  }

  function NormalizedSet(f: Foreign, uris: seq<string>): set<string> {
    set i | 0 <= i < |uris| :: Normalize(f, uris[i])
  }

  /** The URL is http on a loopback host. */
  ghost predicate LoopbackUri(f: Foreign, uri: string) {
    && f.parseUrl(uri).Some? && f.parseUrl(uri).value.scheme == "http"
    && f.parseUrl(uri).value.host in {Some("127.0.0.1"), Some("localhost"), Some("::1"), Some("[::1]")}
  }

  /** Both URIs are loopback URLs that differ at most in the port. */
  ghost predicate SameButPort(f: Foreign, a: string, b: string) {
    && LoopbackUri(f, a) && LoopbackUri(f, b)
    && f.parseUrl(a).value == f.parseUrl(b).value.(port := f.parseUrl(a).value.port)
  }

  /** Only loopback URIs are touched, and of them only the port. */
  lemma NormalizesExactly(f: Foreign, uri: string)
    ensures !LoopbackUri(f, uri) ==> Normalize(f, uri) == uri
    ensures LoopbackUri(f, uri) ==> Normalize(f, uri) == f.printUrl(f.parseUrl(uri).value.(port := None))
  {}

  /** Two URIs are taken for the same exactly when they are, or are loopback URLs with other ports. */
  lemma SameUriIff(f: Foreign, a: string, b: string)
    requires UrlLawful(f)
    ensures Normalize(f, a) == Normalize(f, b) <==> a == b || SameButPort(f, a, b)
  {
    NormalizesExactly(f, a);
    NormalizesExactly(f, b);
    if LoopbackUri(f, a) {
      var u := f.parseUrl(a).value.(port := None);
      assert f.parseUrl(f.printUrl(u)) == Some(u);
    }
    if LoopbackUri(f, b) {
      var v := f.parseUrl(b).value.(port := None);
      assert f.parseUrl(f.printUrl(v)) == Some(v);
    }
  }

  /** How an authorization request's redirect URI is compared with a registered one. */
  predicate RedirectUriMatches(f: Foreign, declared: string, requested: string) {
    || declared == requested
    || (f.parseUrl(declared).Some? && f.parseUrl(requested).Some?
        && var (a, b) := (f.parseUrl(declared).value, f.parseUrl(requested).value);
        && IsLoopbackHttp(a) && IsLoopbackHttp(b)
        && a.scheme == b.scheme && a.host == b.host && a.path == b.path && a.query == b.query)
  }

  /**
    Registration and authorization agree on which URIs are the same, except that authorization does not look at the
    user info and the fragment of loopback URLs, which registration keeps apart.
   */
  lemma SameUriIffMatches(f: Foreign, a: string, b: string)
    requires UrlLawful(f)
    ensures Normalize(f, a) == Normalize(f, b) <==>
      && RedirectUriMatches(f, a, b)
      && (a == b
          || (f.parseUrl(a).value.userInfo == f.parseUrl(b).value.userInfo
              && f.parseUrl(a).value.fragment == f.parseUrl(b).value.fragment))
    ensures RedirectUriMatches(f, a, b) && a != b ==> LoopbackUri(f, a) && LoopbackUri(f, b)
  {
    SameUriIff(f, a, b);
  }

  /** On loopback the port does not matter (section 7.3 of RFC 8252). */
  lemma LoopbackPortIgnored(f: Foreign, a: string, b: string)
    requires f.parseUrl(a).Some? && f.parseUrl(b).Some?
    requires f.parseUrl(a).value.(port := None) == f.parseUrl(b).value.(port := None)
    requires IsLoopbackHttp(f.parseUrl(a).value)
    ensures Normalize(f, a) == Normalize(f, b)
  {}

  lemma NormalizeIdempotent(f: Foreign, uri: string)
    requires UrlLawful(f)
    ensures Normalize(f, Normalize(f, uri)) == Normalize(f, uri)
  {
    if f.parseUrl(uri).Some? {
      var u := f.parseUrl(uri).value.(port := None);
      assert f.parseUrl(f.printUrl(u)) == Some(u);
    }
  }

  // ---------- minting ----------

  datatype RegisterClientPayload = RegisterClientPayload(clientName: string, redirectUris: seq<string>)

  datatype RegisteredClient = RegisteredClient(clientId: string, clientName: string, redirectUris: seq<string>)

  function Segments(f: Foreign, kid: string, json: Bytes): seq<string> {
    ["ppcli", "v1", B.Encode(f.toUtf8(kid)), B.Encode(json)]
  }

  function SigningInput(f: Foreign, kid: string, json: Bytes): string {
    Join(Segments(f, kid, json), '.')
  }

  /** The id for some metadata bytes under one key. */
  function SignedId(f: Foreign, kid: string, key: Bytes, json: Bytes): string {
    SigningInput(f, kid, json) + "." + B.Encode(f.hmac(key, SigningInput(f, kid, json)))
  }

  function Encode(f: Foreign, r: Registrar, meta: Meta): string
    requires Usable(r)
  {
    SignedId(f, r.activeKid, r.keys[r.activeKid], f.printMeta(meta))
  }

  /** What registering a payload yields: the metadata in canonical form and its signed id. */
  ghost predicate Registers(f: Foreign, r: Registrar, payload: RegisterClientPayload, c: RegisteredClient)
    requires Usable(r)
  {
    && c.clientName == payload.clientName
    && StrictlySorted(c.redirectUris) && Elements(c.redirectUris) == NormalizedSet(f, payload.redirectUris)
    && c.clientId == Encode(f, r, Meta(c.clientName, c.redirectUris))
  }

  method Register(f: Foreign, r: Registrar, payload: RegisterClientPayload) returns (c: RegisteredClient)
    requires Usable(r)
    ensures Registers(f, r, payload, c)
  {
    var uris: seq<string> := [];
    for i := 0 to |payload.redirectUris|
      invariant |uris| == i && forall k :: 0 <= k < i ==> uris[k] == Normalize(f, payload.redirectUris[k])
    {
      uris := uris + [Normalize(f, payload.redirectUris[i])];
    }
    assert Elements(uris) == NormalizedSet(f, payload.redirectUris) by {
      forall x | x in uris ensures x in NormalizedSet(f, payload.redirectUris) {
        var i :| 0 <= i < |uris| && uris[i] == x;
        assert Normalize(f, payload.redirectUris[i]) == x;
      }
      forall i | 0 <= i < |uris| ensures Normalize(f, payload.redirectUris[i]) in uris {
        assert uris[i] in uris;
      }
    }
    var sorted := Sort(uris);
    assert forall x :: x in sorted <==> x in multiset(sorted);
    assert forall x :: x in uris <==> x in multiset(uris);
    var canonical := Dedup(sorted);
    var meta := Meta(payload.clientName, canonical);
    c := RegisteredClient(Encode(f, r, meta), meta.clientName, meta.redirectUris);
  }

  // ---------- resolving ----------

  datatype ClientRegistrationError = Malformed | UnknownKey | InvalidSignature

  datatype ClientIdResolution = Verified(client: RegisteredClient) | Invalid(error: ClientRegistrationError)
    | Unrecognized

  function DecodeMeta(f: Foreign, clientId: string,
        segment: string): Result<RegisteredClient, ClientRegistrationError> {
    match B.Decode(segment)
    case None => Err(Malformed)
    case Some(json) =>
      match f.parseMeta(json)
      case None => Err(Malformed)
      case Some(meta) => Ok(RegisteredClient(clientId, meta.clientName, meta.redirectUris))
  }

  function VerifyParts(f: Foreign, key: Bytes, clientId: string,
        parts: seq<string>): Result<RegisteredClient, ClientRegistrationError>
    requires |parts| == 5
  {
    match B.Decode(parts[4])
    case None => Err(Malformed)
    case Some(tag) =>
      if f.hmac(key, Join(parts[..4], '.')) != tag then Err(InvalidSignature)
      else DecodeMeta(f, clientId, parts[3])
  }

  function Decode(f: Foreign, r: Registrar, clientId: string): Result<RegisteredClient, ClientRegistrationError> {
    var parts := Split(clientId, '.');
    if |parts| != 5 || parts[0] != "ppcli" || parts[1] != "v1" then Err(Malformed)
    else
      match B.Decode(parts[2])
      case None => Err(Malformed)
      case Some(kidBytes) =>
        match f.fromUtf8(kidBytes)
        case None => Err(Malformed)
        case Some(kid) => if kid !in r.keys then Err(UnknownKey) else VerifyParts(f, r.keys[kid], clientId, parts)
  }

  function ResolveSigned(f: Foreign, r: Registrar, clientId: string): ClientIdResolution {
    if !("ppcli." <= clientId) then Unrecognized
    else
      match Decode(f, r, clientId)
      case Ok(client) => Verified(client)
      case Err(error) => Invalid(error)
  }

  // ---------- the shape of a signed id ----------

  function IdParts(f: Foreign, kid: string, key: Bytes, json: Bytes): seq<string> {
    Segments(f, kid, json) + [B.Encode(f.hmac(key, SigningInput(f, kid, json)))]
  }

  lemma EncodedHasNoDot(b: Bytes)
    ensures !Contains(B.Encode(b), '.')
  {
    forall i | 0 <= i < |B.Encode(b)| ensures B.Encode(b)[i] != '.' {
      B.EncodedNotDot(b, i);
    }
  }

  lemma {:induction false} JoinLast(parts: seq<string>, last: string)
    requires parts != []
    ensures Join(parts + [last], '.') == Join(parts, '.') + "." + last
  {
    if |parts| == 1 {
      assert (parts + [last])[1..] == [last];
    } else {
      assert (parts + [last])[1..] == parts[1..] + [last];
      JoinLast(parts[1..], last);
      assert Join(parts + [last], '.') == parts[0] + ['.'] + (Join(parts[1..], '.') + "." + last);
    }
  }

  lemma SignedIdParts(f: Foreign, kid: string, key: Bytes, json: Bytes)
    ensures Split(SignedId(f, kid, key, json), '.') == IdParts(f, kid, key, json)
    ensures SignedId(f, kid, key, json) == Join(IdParts(f, kid, key, json), '.')
    ensures "ppcli." <= SignedId(f, kid, key, json)
  {
    var parts := IdParts(f, kid, key, json);
    JoinLast(Segments(f, kid, json), B.Encode(f.hmac(key, SigningInput(f, kid, json))));
    EncodedHasNoDot(f.toUtf8(kid));
    EncodedHasNoDot(json);
    EncodedHasNoDot(f.hmac(key, SigningInput(f, kid, json)));
    assert !Contains("ppcli", '.') && !Contains("v1", '.');
    SplitJoin(parts, '.');
    assert Join(parts, '.') == "ppcli" + ['.'] + Join(parts[1..], '.');
  }

  /** Nothing that went into a signed id is lost. */
  lemma SignedIdInjective(f: Foreign, kid1: string, key1: Bytes, json1: Bytes, kid2: string, key2: Bytes, json2: Bytes)
    requires Lawful(f) && SignedId(f, kid1, key1, json1) == SignedId(f, kid2, key2, json2)
    ensures kid1 == kid2 && json1 == json2
  {
    SignedIdParts(f, kid1, key1, json1);
    SignedIdParts(f, kid2, key2, json2);
    var p := Split(SignedId(f, kid1, key1, json1), '.');
    assert p[2] == B.Encode(f.toUtf8(kid1)) == B.Encode(f.toUtf8(kid2)) && p[3] == B.Encode(json1) == B.Encode(json2);
    B.EncodeInjective(f.toUtf8(kid1), f.toUtf8(kid2));
    B.EncodeInjective(json1, json2);
    assert f.fromUtf8(f.toUtf8(kid1)) == Some(kid1) && f.fromUtf8(f.toUtf8(kid2)) == Some(kid2);
  }

  // ---------- one client, one id ----------

  /**
    Two registrations get the same id exactly when the names are equal and the sets of normalized redirect
    URIs are equal: order, repeats and loopback ports do not matter, and nothing else is confused.
   */
  lemma SameIdIffSameClient(
      f: Foreign, r: Registrar, p1: RegisterClientPayload, c1: RegisteredClient, p2: RegisterClientPayload,
      c2: RegisteredClient)
    requires Lawful(f) && Usable(r) && Registers(f, r, p1, c1) && Registers(f, r, p2, c2)
    ensures c1.clientId == c2.clientId <==>
      p1.clientName == p2.clientName && NormalizedSet(f, p1.redirectUris) == NormalizedSet(f, p2.redirectUris)
  {
    var m1, m2 := Meta(c1.clientName, c1.redirectUris), Meta(c2.clientName, c2.redirectUris);
    if c1.clientId == c2.clientId {
      var key := r.keys[r.activeKid];
      SignedIdInjective(f, r.activeKid, key, f.printMeta(m1), r.activeKid, key, f.printMeta(m2));
      assert Some(m1) == f.parseMeta(f.printMeta(m1)) == Some(m2);
    }
    if NormalizedSet(f, p1.redirectUris) == NormalizedSet(f, p2.redirectUris) {
      CanonicalUnique(c1.redirectUris, c2.redirectUris);
    }
  }

  /**
    What is stored: each URI as it was given, except that loopback URLs lose their port; nothing else, and nothing is
    left out.
   */
  lemma StoredUris(f: Foreign, r: Registrar, p: RegisterClientPayload, c: RegisteredClient, uri: string)
    requires Usable(r) && Registers(f, r, p, c)
    ensures uri in p.redirectUris && !LoopbackUri(f, uri) ==> uri in c.redirectUris
    ensures uri in p.redirectUris && LoopbackUri(f, uri) ==>
      f.printUrl(f.parseUrl(uri).value.(port := None)) in c.redirectUris
    ensures uri in c.redirectUris ==>
      || (uri in p.redirectUris && !LoopbackUri(f, uri))
      || exists given :: given in p.redirectUris && LoopbackUri(f, given)
                         && uri == f.printUrl(f.parseUrl(given).value.(port := None))
  {
    if uri in p.redirectUris {
      var i :| 0 <= i < |p.redirectUris| && p.redirectUris[i] == uri;
      NormalizesExactly(f, uri);
      assert Normalize(f, p.redirectUris[i]) in Elements(c.redirectUris);
    }
    if uri in c.redirectUris {
      assert uri in Elements(c.redirectUris);
      var i :| 0 <= i < |p.redirectUris| && Normalize(f, p.redirectUris[i]) == uri;
      NormalizesExactly(f, p.redirectUris[i]);
      assert p.redirectUris[i] in p.redirectUris;
    }
  }

  /** Whatever was registered is accepted again, on loopback with any port: it matches a stored URI. */
  lemma RegisteredUriMatches(f: Foreign, r: Registrar, p: RegisterClientPayload, c: RegisteredClient, uri: string,
                             requested: string)
    requires UrlLawful(f) && Usable(r) && Registers(f, r, p, c) && uri in p.redirectUris
    requires requested == uri || SameButPort(f, uri, requested)
    ensures exists declared :: declared in c.redirectUris && RedirectUriMatches(f, declared, requested)
  {
    StoredUris(f, r, p, c, uri);
    if LoopbackUri(f, uri) {
      var u := f.parseUrl(uri).value.(port := None);
      assert f.parseUrl(f.printUrl(u)) == Some(u);
      assert RedirectUriMatches(f, f.printUrl(u), requested);
    } else {
      assert RedirectUriMatches(f, uri, requested);
    }
  }

  /** Two clients with one redirect URI each have the same id exactly when name and URI agree, up to a loopback port. */
  lemma SameIdIffSameUri(f: Foreign, r: Registrar, name1: string, uri1: string, c1: RegisteredClient, name2: string,
                         uri2: string, c2: RegisteredClient)
    requires Lawful(f) && UrlLawful(f) && Usable(r)
    requires Registers(f, r, RegisterClientPayload(name1, [uri1]), c1)
    requires Registers(f, r, RegisterClientPayload(name2, [uri2]), c2)
    ensures c1.clientId == c2.clientId <==> name1 == name2 && (uri1 == uri2 || SameButPort(f, uri1, uri2))
  {
    var p1, p2 := RegisterClientPayload(name1, [uri1]), RegisterClientPayload(name2, [uri2]);
    SameIdIffSameClient(f, r, p1, c1, p2, c2);
    SameUriIff(f, uri1, uri2);
    OneUri(f, uri1);
    OneUri(f, uri2);
  }

  lemma OneUri(f: Foreign, uri: string)
    ensures NormalizedSet(f, [uri]) == {Normalize(f, uri)}
  {
    assert [uri][0] == uri;
  }

  /** Registering what an id resolves to gives the same client again. */
  lemma RegistrationIdempotent(f: Foreign, r: Registrar, p: RegisterClientPayload, c: RegisteredClient,
        again: RegisteredClient)
    requires UrlLawful(f) && Usable(r) && Registers(f, r, p, c)
    requires Registers(f, r, RegisterClientPayload(c.clientName, c.redirectUris), again)
    ensures again == c
  {
    forall i | 0 <= i < |c.redirectUris| ensures Normalize(f, c.redirectUris[i]) == c.redirectUris[i] {
      assert c.redirectUris[i] in Elements(c.redirectUris);
      var k :| 0 <= k < |p.redirectUris| && Normalize(f, p.redirectUris[k]) == c.redirectUris[i];
      NormalizeIdempotent(f, p.redirectUris[k]);
    }
    assert NormalizedSet(f, c.redirectUris) == Elements(c.redirectUris);
    CanonicalUnique(c.redirectUris, again.redirectUris);
  }

  // ---------- ids across key rings ----------

  /**
    What becomes of a minted id under any ring: exactly the metadata it carries as long as the minting key is there.
   */
  lemma ResolveUnderRing(f: Foreign, ring: Registrar, kid: string, key: Bytes, meta: Meta)
    requires Lawful(f)
    ensures var json := f.printMeta(meta);
      var id := SignedId(f, kid, key, json);
      var input := SigningInput(f, kid, json);
      ResolveSigned(f, ring, id) ==
        if kid !in ring.keys then Invalid(UnknownKey)
        else if f.hmac(ring.keys[kid], input) != f.hmac(key, input) then Invalid(InvalidSignature)
        else Verified(RegisteredClient(id, meta.clientName, meta.redirectUris))
  {
    var json := f.printMeta(meta);
    var parts := IdParts(f, kid, key, json);
    SignedIdParts(f, kid, key, json);
    B.DecodeIff(parts[2], f.toUtf8(kid));
    B.DecodeIff(parts[3], json);
    B.DecodeIff(parts[4], f.hmac(key, SigningInput(f, kid, json)));
    assert parts[..4] == Segments(f, kid, json);
    assert f.fromUtf8(f.toUtf8(kid)) == Some(kid);
    assert f.parseMeta(json) == Some(meta);
  }

  /** Rotation: a registered client resolves to exactly what was registered while the minting key remains. */
  lemma RegisteredClientResolves(f: Foreign, r: Registrar, p: RegisterClientPayload, c: RegisteredClient,
        later: Registrar)
    requires Lawful(f) && Usable(r) && Registers(f, r, p, c)
    requires r.activeKid in later.keys && later.keys[r.activeKid] == r.keys[r.activeKid]
    ensures ResolveSigned(f, later, c.clientId) == Verified(c)
  {
    ResolveUnderRing(f, later, r.activeKid, r.keys[r.activeKid], Meta(c.clientName, c.redirectUris));
  }

  /** The id was signed with a key of the ring, over metadata that reads as this client. */
  ghost predicate Minted(f: Foreign, r: Registrar, clientId: string, c: RegisteredClient) {
    exists kid, json ::
      kid in r.keys && clientId == SignedId(f, kid, r.keys[kid], json)
      && f.parseMeta(json) == Some(Meta(c.clientName, c.redirectUris)) && c.clientId == clientId
  }

  /** The text of a signed id: its last segment signs everything before it. */
  lemma SignedIdText(f: Foreign, kid: string, key: Bytes, json: Bytes)
    ensures var signed := "ppcli.v1." + B.Encode(f.toUtf8(kid)) + "." + B.Encode(json);
      SignedId(f, kid, key, json) == signed + "." + B.Encode(f.hmac(key, signed))
  {
    var parts := Segments(f, kid, json);
    assert Join(parts[3..], '.') == parts[3];
    assert Join(parts[2..], '.') == parts[2] + ['.'] + Join(parts[3..], '.');
    assert Join(parts[1..], '.') == parts[1] + ['.'] + Join(parts[2..], '.');
    assert SigningInput(f, kid, json) == "ppcli.v1." + parts[2] + "." + parts[3];
  }

  /** Exactly the ids without the prefix are left to other registries. */
  lemma UnrecognizedIff(f: Foreign, r: Registrar, clientId: string)
    ensures ResolveSigned(f, r, clientId) == Unrecognized <==> !("ppcli." <= clientId)
    ensures ResolveSigned(f, r, clientId).Verified? ==> ResolveSigned(f, r, clientId).client.clientId == clientId
  {}

  lemma VerifiedIsMinted(f: Foreign, r: Registrar, clientId: string, c: RegisteredClient)
    requires Lawful(f) && ResolveSigned(f, r, clientId) == Verified(c)
    ensures Minted(f, r, clientId, c)
  {
    var parts := Split(clientId, '.');
    var kid := f.fromUtf8(B.Decode(parts[2]).value).value;
    var json := B.Decode(parts[3]).value;
    VerifiedParts(f, r, clientId, c, kid, json);
    JoinSplit(clientId, '.');
    SignedIdParts(f, kid, r.keys[kid], json);
  }

  /** What the parts of an accepted id are. */
  lemma VerifiedParts(f: Foreign, r: Registrar, clientId: string, c: RegisteredClient, kid: string, json: Bytes)
    requires Lawful(f) && Decode(f, r, clientId) == Ok(c)
    requires var parts := Split(clientId, '.');
      f.fromUtf8(B.Decode(parts[2]).value) == Some(kid) && B.Decode(parts[3]).value == json
    ensures kid in r.keys && Split(clientId, '.') == IdParts(f, kid, r.keys[kid], json)
  {
    var parts := Split(clientId, '.');
    var signature := B.Decode(parts[4]).value;
    SegmentsRead(f, parts, kid, json);
    B.DecodeIff(parts[4], signature);
    assert signature == f.hmac(r.keys[kid], SigningInput(f, kid, json));
    assert parts == parts[..4] + [parts[4]];
  }

  lemma SegmentsRead(f: Foreign, parts: seq<string>, kid: string, json: Bytes)
    requires Lawful(f) && |parts| == 5 && parts[0] == "ppcli" && parts[1] == "v1"
    requires B.Decode(parts[2]).Some? && f.fromUtf8(B.Decode(parts[2]).value) == Some(kid)
    requires B.Decode(parts[3]) == Some(json)
    ensures parts[..4] == Segments(f, kid, json)
  {
    B.DecodeIff(parts[2], f.toUtf8(kid));
    B.DecodeIff(parts[3], json);
  }

  lemma MintedIsVerified(f: Foreign, r: Registrar, clientId: string, c: RegisteredClient)
    requires Lawful(f) && Minted(f, r, clientId, c)
    ensures ResolveSigned(f, r, clientId) == Verified(c)
  {
    var kid, json :| kid in r.keys && clientId == SignedId(f, kid, r.keys[kid], json)
      && f.parseMeta(json) == Some(Meta(c.clientName, c.redirectUris)) && c.clientId == clientId;
    var parts := IdParts(f, kid, r.keys[kid], json);
    SignedIdParts(f, kid, r.keys[kid], json);
    B.DecodeIff(parts[2], f.toUtf8(kid));
    B.DecodeIff(parts[3], json);
    B.DecodeIff(parts[4], f.hmac(r.keys[kid], SigningInput(f, kid, json)));
    assert parts[..4] == Segments(f, kid, json);
    assert f.fromUtf8(f.toUtf8(kid)) == Some(kid);
  }

  /**
    Unforgeable up to the MAC: an id is accepted exactly when it is the signature of its own contents under a held
    key.
   */
  lemma VerifiedIffMinted(f: Foreign, r: Registrar, clientId: string, c: RegisteredClient)
    requires Lawful(f)
    ensures ResolveSigned(f, r, clientId) == Verified(c) <==> Minted(f, r, clientId, c)
  {
    if ResolveSigned(f, r, clientId) == Verified(c) {
      VerifiedIsMinted(f, r, clientId, c);
    }
    if Minted(f, r, clientId, c) {
      MintedIsVerified(f, r, clientId, c);
    }
  }
}
