/**
  PASETO tokens: packing registered and custom claims, encrypting under the active key, and verifying
  against a ring. The cipher, the JSON text, RFC 3339 printing and the key reader are arbitrary functions;
  `Lawful` and `Authentic` list all that is asked of them.
 */
module Paseto {
  import opened Wrappers
  import opened Text
  import opened Json
  import opened Uuids
  import opened KeyRing
  import opened Clock

  type Claims = map<string, Json>

  /** Years 0 to 9999, the dates that RFC 3339 can write. */
  const RFC3339_FIRST := -62_167_219_200 * SECOND
  const RFC3339_END := 253_402_300_800 * SECOND

  datatype Foreign<!K> = Foreign(
    read: KeyReader<K>,
    encrypt: (K, string, string, string, nat) -> string,
    footerOf: string -> Option<string>,
    decrypt: (K, string, string, string) -> Option<string>,
    printClaims: Claims -> string,
    parseClaims: string -> Option<Claims>,
    printFooter: string -> string,
    parseFooter: string -> Option<string>,
    formatTime: Time -> string,
    parseTime: string -> Option<Time>)

  /** How deep the JSON reader follows nested values. */
  const READER_DEPTH := 127

  /** Claims that come back from their JSON text as they were. */
  predicate ClaimsReadBack(c: Claims) {
    ReadsBack(Obj(c), READER_DEPTH)
  }

  predicate Writable(t: Time) {
    RFC3339_FIRST <= t < RFC3339_END
  }

  ghost predicate Lawful<K(!new)>(f: Foreign<K>) {
    && (forall k, p, foot, a, n :: f.footerOf(f.encrypt(k, p, foot, a, n)) == Some(foot))
    && (forall k, p, foot, a, n :: f.decrypt(k, f.encrypt(k, p, foot, a, n), foot, a) == Some(p))
    && (forall c :: ClaimsReadBack(c) ==> f.parseClaims(f.printClaims(c)) == Some(c))
    && (forall kid :: f.parseFooter(f.printFooter(kid)) == Some(kid))
    && (forall t :: Writable(t) ==> f.formatTime(t) != "" && f.parseTime(f.formatTime(t)) == Some(WholeSecond(t)))
  }

  /** An ideal cipher: a token opens only with the key, footer and implicit assertion it was made with. */
  ghost predicate Authentic<K(!new)>(f: Foreign<K>) {
    forall k, p, foot, a, n, k2, foot2, a2 ::
      f.decrypt(k2, f.encrypt(k, p, foot, a, n), foot2, a2).Some? ==> k2 == k && foot2 == foot && a2 == a
  }

  datatype Error = Keyring | Issue | Verify

  datatype RegisteredClaims = RegisteredClaims(subject: Uuid, tokenId: Uuid, expiresAt: Time)
  datatype IssuedToken = IssuedToken(token: string, tokenId: Uuid, keyId: string, expiresAt: Time)
  datatype VerifiedToken = VerifiedToken(subject: Uuid, tokenId: Uuid, keyId: string, expiresAt: Time, claims: Claims)

  const REGISTERED := ["iss", "aud", "sub", "jti", "iat", "nbf", "exp"]

  // ---------- packing ----------

  function WithRegistered<K>(f: Foreign<K>, issuer: string, audience: string, r: RegisteredClaims, custom: Claims,
        issuedAt: Time): Claims {
    custom["iss" := Str(issuer)]["aud" := Str(audience)]
      ["sub" := Str(Format(r.subject))]["jti" := Str(Format(r.tokenId))]
      ["iat" := Str(f.formatTime(issuedAt))]["nbf" := Str(f.formatTime(issuedAt))]
      ["exp" := Str(f.formatTime(r.expiresAt))]
  }

  predicate Packable(r: RegisteredClaims, custom: Json, issuedAt: Time) {
    issuedAt < r.expiresAt && custom.Obj? && forall i :: 0 <= i < |REGISTERED| ==> REGISTERED[i] !in custom.fields
  }

  method PayloadAt<K>(f: Foreign<K>, issuer: string, audience: string, r: RegisteredClaims, custom: Json,
        issuedAt: Time)
    returns (payload: Result<string, Error>)
    ensures payload == if Packable(r, custom, issuedAt)
                       then Ok(f.printClaims(WithRegistered(f, issuer, audience, r, custom.fields, issuedAt)))
                         else Err(Issue)
    ensures payload.Err? <==>
      || r.expiresAt <= issuedAt || !custom.Obj?
      || exists name :: name in ["iss", "aud", "sub", "jti", "iat", "nbf", "exp"] && name in custom.fields
  {
    assert REGISTERED == ["iss", "aud", "sub", "jti", "iat", "nbf", "exp"];
    if r.expiresAt <= issuedAt || !custom.Obj? {
      return Err(Issue);
    }
    var claims := custom.fields;
    for i := 0 to |REGISTERED|
      invariant forall j :: 0 <= j < i ==> REGISTERED[j] !in claims
    {
      if REGISTERED[i] in claims {
        return Err(Issue);
      }
    }
    claims := claims["iss" := Str(issuer)];
    claims := claims["aud" := Str(audience)];
    claims := claims["sub" := Str(Format(r.subject))];
    claims := claims["jti" := Str(Format(r.tokenId))];
    var issued := f.formatTime(issuedAt);
    claims := claims["iat" := Str(issued)];
    claims := claims["nbf" := Str(issued)];
    claims := claims["exp" := Str(f.formatTime(r.expiresAt))];
    payload := Ok(f.printClaims(claims));
  }

  // ---------- unpacking ----------

  function StringClaim(claims: Claims, name: string): Option<string> {
    if name in claims && claims[name].Str? && claims[name].s != "" then Some(claims[name].s) else None
  }

  function UuidClaim(claims: Claims, name: string): Option<Uuid> {
    match StringClaim(claims, name)
    case None => None
    case Some(s) => Uuids.Parse(s)
  }

  function TimeClaim<K>(f: Foreign<K>, claims: Claims, name: string): Option<Time> {
    match StringClaim(claims, name)
    case None => None
    case Some(s) => f.parseTime(s)
  }

  function WithoutRegistered(claims: Claims): Claims {
    claims - (set i | 0 <= i < |REGISTERED| :: REGISTERED[i])
  }

  function Unpack<K>(f: Foreign<K>, claims: Claims, keyId: string, issuer: string, audience: string,
        now: Time): Result<VerifiedToken, Error> {
    if StringClaim(claims, "iss") != Some(issuer) || StringClaim(claims, "aud") != Some(audience) then Err(Verify)
    else
      match (UuidClaim(claims, "sub"), UuidClaim(claims, "jti"))
      case (Some(subject), Some(tokenId)) =>
        (match (TimeClaim(f, claims, "iat"), TimeClaim(f, claims, "nbf"), TimeClaim(f, claims, "exp"))
         case (Some(issuedAt), Some(notBefore), Some(expiresAt)) =>
           if issuedAt > now || notBefore > now || expiresAt <= now || issuedAt >= expiresAt then Err(Verify)
           else Ok(VerifiedToken(subject, tokenId, keyId, expiresAt, WithoutRegistered(claims)))
         case _ => Err(Verify))
      case _ => Err(Verify)
  }

  ghost predicate TextIs(claims: Claims, name: string, text: string) {
    name in claims && claims[name] == Str(text)
  }

  /** The claims say these texts. */
  ghost predicate Says(claims: Claims, issuer: string, audience: string, sub: string, jti: string, iat: string,
                       nbf: string, exp: string) {
    && TextIs(claims, "iss", issuer) && TextIs(claims, "aud", audience) && TextIs(claims, "sub", sub)
    && TextIs(claims, "jti", jti) && TextIs(claims, "iat", iat) && TextIs(claims, "nbf", nbf)
    && TextIs(claims, "exp", exp)
  }

  /** They are in order at this time: issued and valid by now, not expired, and meant to last. */
  ghost predicate InOrder<K>(f: Foreign<K>, sub: string, jti: string, iat: string, nbf: string, exp: string, now: Time)
  {
    && Uuids.Parse(sub).Some? && Uuids.Parse(jti).Some? && iat != "" && nbf != "" && exp != ""
    && f.parseTime(iat).Some? && f.parseTime(nbf).Some? && f.parseTime(exp).Some?
    && f.parseTime(iat).value <= now && f.parseTime(nbf).value <= now < f.parseTime(exp).value
    && f.parseTime(iat).value < f.parseTime(exp).value
  }

  /** Which claims verify, whoever wrote them, and what they verify to. */
  lemma AcceptsExactly<K(!new)>(f: Foreign<K>, claims: Claims, keyId: string, issuer: string, audience: string,
                                now: Time)
    ensures var r := Unpack(f, claims, keyId, issuer, audience, now);
      && (r.Ok? <==>
          && issuer != "" && audience != ""
          && exists sub, jti, iat, nbf, exp ::
               Says(claims, issuer, audience, sub, jti, iat, nbf, exp) && InOrder(f, sub, jti, iat, nbf, exp, now))
      && forall sub, jti, iat, nbf, exp ::
           r.Ok? && Says(claims, issuer, audience, sub, jti, iat, nbf, exp) ==>
             r.value == VerifiedToken(Uuids.Parse(sub).value, Uuids.Parse(jti).value, keyId, f.parseTime(exp).value,
                                      claims - {"iss", "aud", "sub", "jti", "iat", "nbf", "exp"})
  {
    assert (set i | 0 <= i < |REGISTERED| :: REGISTERED[i]) == {"iss", "aud", "sub", "jti", "iat", "nbf", "exp"} by {
      assert REGISTERED[0] == "iss" && REGISTERED[1] == "aud" && REGISTERED[2] == "sub" && REGISTERED[3] == "jti";
      assert REGISTERED[4] == "iat" && REGISTERED[5] == "nbf" && REGISTERED[6] == "exp";
    }
    var r := Unpack(f, claims, keyId, issuer, audience, now);
    if r.Ok? {
      assert Says(claims, issuer, audience, claims["sub"].s, claims["jti"].s, claims["iat"].s, claims["nbf"].s,
                  claims["exp"].s);
    }
  }

  method RemoveRegistered(claims: Claims) returns (rest: Claims)
    ensures rest == WithoutRegistered(claims)
  {
    rest := claims;
    for i := 0 to |REGISTERED|
      invariant rest == claims - (set j | 0 <= j < i :: REGISTERED[j])
    {
      rest := rest - {REGISTERED[i]};
    }
  }

  method VerifiedPayload<K>(f: Foreign<K>, payload: string, keyId: string, issuer: string, audience: string, now: Time)
    returns (r: Result<VerifiedToken, Error>)
    ensures r == match f.parseClaims(payload)
                 case None => Err(Verify)
                 case Some(claims) => Unpack(f, claims, keyId, issuer, audience, now)
    ensures r.Ok? ==>
      && f.parseClaims(payload).Some?
      && TextIs(f.parseClaims(payload).value, "iss", issuer) && TextIs(f.parseClaims(payload).value, "aud", audience)
    ensures r.Err? ==> r == Err(Verify)
  {
    var parsed := f.parseClaims(payload);
    if parsed.None? {
      return Err(Verify);
    }
    var claims := parsed.value;
    if StringClaim(claims, "iss") != Some(issuer) || StringClaim(claims, "aud") != Some(audience) {
      return Err(Verify);
    }
    var subject, tokenId := UuidClaim(claims, "sub"), UuidClaim(claims, "jti");
    if subject.None? || tokenId.None? {
      return Err(Verify);
    }
    var issuedAt, notBefore, expiresAt := TimeClaim(f, claims, "iat"), TimeClaim(f, claims, "nbf"),
      TimeClaim(f, claims, "exp");
    if issuedAt.None? || notBefore.None? || expiresAt.None? {
      return Err(Verify);
    }
    if issuedAt.value > now || notBefore.value > now || expiresAt.value <= now || issuedAt.value >= expiresAt.value {
      return Err(Verify);
    }
    claims := RemoveRegistered(claims);
    r := Ok(VerifiedToken(subject.value, tokenId.value, keyId, expiresAt.value, claims));
  }

  // ---------- tokens ----------

  datatype Encryptor<K> = Encryptor(issuer: string, audience: string, keyId: string, secretKey: K)
  datatype Decryptor<K> = Decryptor(issuer: string, audience: string, keys: map<string, K>)

  function EncryptorFrom<K>(f: Foreign<K>, issuer: string, audience: string, c: Config): Result<Encryptor<K>, Error> {
    match FirstKey(c.keys, c.activeKeyId)
    case None => Err(Keyring)
    case Some(active) =>
      match f.read(active.secret)
      case None => Err(Keyring)
      case Some(key) => Ok(Encryptor(issuer, audience, active.id, key))
  }

  function DecryptorFrom<K>(f: Foreign<K>, issuer: string, audience: string, c: Config): Result<Decryptor<K>, Error> {
    if Readable(f.read, c.keys) then Ok(Decryptor(issuer, audience, AllKeys(f.read, c.keys))) else Err(Keyring)
  }

  function Encrypt<K>(f: Foreign<K>, e: Encryptor<K>, assertion: string, r: RegisteredClaims, custom: Json,
        issuedAt: Time, nonce: nat)
    : Result<IssuedToken, Error>
  {
    if !Packable(r, custom, issuedAt) then Err(Issue)
    else
      var payload := f.printClaims(WithRegistered(f, e.issuer, e.audience, r, custom.fields, issuedAt));
      match f.parseTime(f.formatTime(r.expiresAt))
      case None => Err(Issue)
      case Some(expiresAt) =>
        Ok(IssuedToken(f.encrypt(e.secretKey, payload, f.printFooter(e.keyId), assertion, nonce), r.tokenId, e.keyId,
                       expiresAt))
  }

  function Open<K>(f: Foreign<K>, d: Decryptor<K>, assertion: string, token: string, footer: string, kid: string,
        now: Time)
    : Result<VerifiedToken, Error>
  {
    if kid !in d.keys then Err(Verify)
    else
      match f.decrypt(d.keys[kid], token, footer, assertion)
      case None => Err(Verify)
      case Some(payload) =>
        match f.parseClaims(payload)
        case None => Err(Verify)
        case Some(claims) => Unpack(f, claims, kid, d.issuer, d.audience, now)
  }

  function Decrypt<K>(f: Foreign<K>, d: Decryptor<K>, assertion: string, token: string,
        now: Time): Result<VerifiedToken, Error> {
    match f.footerOf(token)
    case None => Err(Verify)
    case Some(footer) =>
      match f.parseFooter(footer)
      case None => Err(Verify)
      case Some(kid) => if IsBlank(kid) then Err(Verify) else Open(f, d, assertion, token, footer, kid, now)
  }

  // ---------- packing and unpacking are inverse ----------

  lemma NamesDiffer()
    ensures forall i, j :: 0 <= i < j < |REGISTERED| ==> REGISTERED[i] != REGISTERED[j]
  {
    assert "iss"[1] == 's' && "iat"[1] == 'a';
    assert "iss"[0] == 'i' && "aud"[0] == 'a' && "sub"[0] == 's' && "jti"[0] == 'j' && "nbf"[0] == 'n'
      && "exp"[0] == 'e';
    assert "iat"[0] == 'i';
  }

  lemma PackedReadsBack<K>(f: Foreign<K>, issuer: string, audience: string, r: RegisteredClaims, custom: Claims,
        issuedAt: Time)
    ensures var c := WithRegistered(f, issuer, audience, r, custom, issuedAt);
      && REGISTERED[0] in c && c[REGISTERED[0]] == Str(issuer) && REGISTERED[1] in c
        && c[REGISTERED[1]] == Str(audience)
      && REGISTERED[2] in c && c[REGISTERED[2]] == Str(Format(r.subject))
      && REGISTERED[3] in c && c[REGISTERED[3]] == Str(Format(r.tokenId))
      && REGISTERED[4] in c && c[REGISTERED[4]] == Str(f.formatTime(issuedAt))
      && REGISTERED[5] in c && c[REGISTERED[5]] == Str(f.formatTime(issuedAt))
      && REGISTERED[6] in c && c[REGISTERED[6]] == Str(f.formatTime(r.expiresAt))
  {
    NamesDiffer();
  }

  lemma PackedLeavesCustom<K>(f: Foreign<K>, issuer: string, audience: string, r: RegisteredClaims, custom: Claims,
        issuedAt: Time)
    requires forall i :: 0 <= i < |REGISTERED| ==> REGISTERED[i] !in custom
    ensures WithoutRegistered(WithRegistered(f, issuer, audience, r, custom, issuedAt)) == custom
  {
    var names := set i | 0 <= i < |REGISTERED| :: REGISTERED[i];
    var c := WithRegistered(f, issuer, audience, r, custom, issuedAt);
    assert REGISTERED[0] in names && REGISTERED[1] in names && REGISTERED[2] in names && REGISTERED[3] in names;
    assert REGISTERED[4] in names && REGISTERED[5] in names && REGISTERED[6] in names;
    assert forall k :: k !in names ==> (k in c <==> k in custom) && (k in c ==> c[k] == custom[k]);
  }

  /** The registered claims are strings, so packing leaves claims that read back. */
  lemma PackedClaimsReadBack<K>(f: Foreign<K>, issuer: string, audience: string, r: RegisteredClaims, custom: Claims,
        issuedAt: Time)
    requires ClaimsReadBack(custom)
    ensures ClaimsReadBack(WithRegistered(f, issuer, audience, r, custom, issuedAt))
  {}

  lemma PackedClaimValues<K(!new)>(
      f: Foreign<K>, issuer: string, audience: string, r: RegisteredClaims, custom: Claims, issuedAt: Time)
    requires Lawful(f) && Writable(issuedAt) && Writable(r.expiresAt)
    ensures var c := WithRegistered(f, issuer, audience, r, custom, issuedAt);
      && StringClaim(c, "iss") == (if issuer == "" then None else Some(issuer))
      && StringClaim(c, "aud") == (if audience == "" then None else Some(audience))
      && UuidClaim(c, "sub") == Some(r.subject) && UuidClaim(c, "jti") == Some(r.tokenId)
      && TimeClaim(f, c, "iat") == Some(WholeSecond(issuedAt)) && TimeClaim(f, c, "nbf") == Some(WholeSecond(issuedAt))
      && TimeClaim(f, c, "exp") == Some(WholeSecond(r.expiresAt))
  {
    PackedReadsBack(f, issuer, audience, r, custom, issuedAt);
    ParseFormat(r.subject);
    ParseFormat(r.tokenId);
  }

  /** Exactly when packed claims verify, and what they verify to. */
  lemma UnpackPacked<K(!new)>(
      f: Foreign<K>, issuer: string, audience: string, r: RegisteredClaims, custom: Json, issuedAt: Time, keyId: string,
      expectedIssuer: string, expectedAudience: string, now: Time)
    requires Lawful(f) && Packable(r, custom, issuedAt) && Writable(issuedAt) && Writable(r.expiresAt)
    ensures var claims := WithRegistered(f, issuer, audience, r, custom.fields, issuedAt);
      Unpack(f, claims, keyId, expectedIssuer, expectedAudience, now) ==
      if issuer == expectedIssuer != "" && audience == expectedAudience != ""
         && WholeSecond(issuedAt) <= now < WholeSecond(r.expiresAt)
      then Ok(VerifiedToken(r.subject, r.tokenId, keyId, WholeSecond(r.expiresAt), custom.fields))
      else Err(Verify)
  {
    PackedClaimValues(f, issuer, audience, r, custom.fields, issuedAt);
    PackedLeavesCustom(f, issuer, audience, r, custom.fields, issuedAt);
  }

  // ---------- tokens through rings ----------

  /**
    What the token that issuing makes is worth to any verifier holding its key: it is accepted exactly by verifiers of
    the same issuer and audience, between its floored times, and then gives back what was packed.
   */
  lemma TokenUnderRing<K(!new)>(
      f: Foreign<K>, e: Encryptor<K>, d: Decryptor<K>, assertion: string, r: RegisteredClaims, custom: Json,
      issuedAt: Time, nonce: nat, now: Time)
    requires Lawful(f) && Writable(issuedAt) && Writable(r.expiresAt) && Packable(r, custom, issuedAt)
    requires ClaimsReadBack(custom.fields)
    requires !IsBlank(e.keyId) && e.keyId in d.keys && d.keys[e.keyId] == e.secretKey
    ensures Encrypt(f, e, assertion, r, custom, issuedAt, nonce).Ok?
    ensures Decrypt(f, d, assertion, Encrypt(f, e, assertion, r, custom, issuedAt, nonce).value.token, now) ==
      if e.issuer == d.issuer != "" && e.audience == d.audience != ""
         && WholeSecond(issuedAt) <= now < WholeSecond(r.expiresAt)
      then Ok(VerifiedToken(r.subject, r.tokenId, e.keyId, WholeSecond(r.expiresAt), custom.fields))
      else Err(Verify)
  {
    var claims := WithRegistered(f, e.issuer, e.audience, r, custom.fields, issuedAt);
    PackedClaimsReadBack(f, e.issuer, e.audience, r, custom.fields, issuedAt);
    OpensToClaims(f, e, d, assertion, claims, nonce, now);
    UnpackPacked(f, e.issuer, e.audience, r, custom, issuedAt, e.keyId, d.issuer, d.audience, now);
  }

  /** What the issuer is told about the token: its id, the key that encrypts it, and when it really expires. */
  lemma IssuesExactly<K(!new)>(
      f: Foreign<K>, e: Encryptor<K>, assertion: string, r: RegisteredClaims, custom: Json, issuedAt: Time, nonce: nat)
    requires Lawful(f) && Writable(r.expiresAt)
    ensures var t := Encrypt(f, e, assertion, r, custom, issuedAt, nonce);
      && (t.Ok? <==> Packable(r, custom, issuedAt))
      && (t.Ok? ==> t.value.tokenId == r.tokenId && t.value.keyId == e.keyId
                    && t.value.expiresAt == WholeSecond(r.expiresAt))
      && (t.Err? ==> t == Err(Issue))
  {}

  /** Encrypting claims under a key of the ring and decrypting leads to unpacking exactly those claims. */
  lemma OpensToClaims<K(!new)>(
      f: Foreign<K>, e: Encryptor<K>, d: Decryptor<K>, assertion: string, claims: Claims, nonce: nat, now: Time)
    requires Lawful(f) && ClaimsReadBack(claims) && !IsBlank(e.keyId) && e.keyId in d.keys
    requires d.keys[e.keyId] == e.secretKey
    ensures var token := f.encrypt(e.secretKey, f.printClaims(claims), f.printFooter(e.keyId), assertion, nonce);
      Decrypt(f, d, assertion, token, now) == Unpack(f, claims, e.keyId, d.issuer, d.audience, now)
  {
    var payload := f.printClaims(claims);
    var footer := f.printFooter(e.keyId);
    var token := f.encrypt(e.secretKey, payload, footer, assertion, nonce);
    assert f.footerOf(token) == Some(footer) && f.parseFooter(footer) == Some(e.keyId);
    assert f.decrypt(e.secretKey, token, footer, assertion) == Some(payload) && f.parseClaims(payload) == Some(claims);
  }

  /**
    The whole way, across rotation: issued at `issuedAt` under one validated ring and checked at a later time
    under another that still holds the issuing key, a token verifies if and only if the check comes before the
    expiry floored to whole seconds, and then returns exactly what was packed.
   */
  lemma VerifiesIffBeforeFlooredExpiry<K(!new)>(
      f: Foreign<K>, issuing: Config, checking: Config, issuer: string, audience: string, assertion: string,
      r: RegisteredClaims, custom: Json, issuedAt: Time, nonce: nat, now: Time)
    requires Lawful(f) && Writable(issuedAt) && Writable(r.expiresAt) && Packable(r, custom, issuedAt)
    requires issuedAt <= now
    requires ClaimsReadBack(custom.fields)
    requires issuer != "" && audience != "" && WellFormed(f.read, issuing) && WellFormed(f.read, checking)
    requires FirstKey(checking.keys, issuing.activeKeyId) == FirstKey(issuing.keys, issuing.activeKeyId)
    ensures EncryptorFrom(f, issuer, audience, issuing).Ok? && DecryptorFrom(f, issuer, audience, checking).Ok?
    ensures var e := EncryptorFrom(f, issuer, audience, issuing).value;
      var d := DecryptorFrom(f, issuer, audience, checking).value;
      var issued := Encrypt(f, e, assertion, r, custom, issuedAt, nonce);
      && issued.Ok? && issued.value.expiresAt == WholeSecond(r.expiresAt)
      && Decrypt(f, d, assertion, issued.value.token, now) ==
           if now < WholeSecond(r.expiresAt)
           then Ok(VerifiedToken(r.subject, r.tokenId, issuing.activeKeyId, WholeSecond(r.expiresAt), custom.fields))
           else Err(Verify)
  {
    ActiveKey(f, issuing);
    LookupsAgree(f.read, checking, issuing.activeKeyId);
    var e := EncryptorFrom(f, issuer, audience, issuing).value;
    var d := DecryptorFrom(f, issuer, audience, checking).value;
    TokenUnderRing(f, e, d, assertion, r, custom, issuedAt, nonce, now);
  }

  /** The issuer needs the first key with the active id to be readable, the verifier all keys. */
  lemma RingsExactly<K>(f: Foreign<K>, issuer: string, audience: string, c: Config)
    ensures EncryptorFrom(f, issuer, audience, c).Ok? <==>
      exists i :: 0 <= i < |c.keys| && c.keys[i].id == c.activeKeyId && f.read(c.keys[i].secret).Some?
                  && forall j :: 0 <= j < i ==> c.keys[j].id != c.activeKeyId
    ensures EncryptorFrom(f, issuer, audience, c).Ok? ==>
      var e := EncryptorFrom(f, issuer, audience, c).value;
      e.issuer == issuer && e.audience == audience && e.keyId == c.activeKeyId
    ensures DecryptorFrom(f, issuer, audience, c).Ok? <==>
      forall i :: 0 <= i < |c.keys| ==> f.read(c.keys[i].secret).Some?
  {
    FirstKeyIs(c.keys, c.activeKeyId);
  }

  lemma ActiveKey<K>(f: Foreign<K>, c: Config)
    requires WellFormed(f.read, c)
    ensures FirstKey(c.keys, c.activeKeyId).Some? && FirstKey(c.keys, c.activeKeyId).value.id == c.activeKeyId
    ensures f.read(FirstKey(c.keys, c.activeKeyId).value.secret).Some? && !IsBlank(c.activeKeyId)
  {
    var i :| 0 <= i < |c.keys| && c.keys[i].id == c.activeKeyId;
    FirstKeyAt(c.keys, i);
  }

  /** A token whose whole lifetime lies inside one second is issued but never verifies. */
  lemma SubSecondTokenNeverVerifies<K(!new)>(
      f: Foreign<K>, e: Encryptor<K>, d: Decryptor<K>, assertion: string, r: RegisteredClaims, custom: Json,
      issuedAt: Time, nonce: nat, now: Time)
    requires Lawful(f) && Writable(issuedAt) && Writable(r.expiresAt) && Packable(r, custom, issuedAt)
    requires ClaimsReadBack(custom.fields)
    requires !IsBlank(e.keyId) && e.keyId in d.keys && d.keys[e.keyId] == e.secretKey
    requires WholeSecond(issuedAt) == WholeSecond(r.expiresAt)
    ensures Encrypt(f, e, assertion, r, custom, issuedAt, nonce).Ok?
    ensures Decrypt(f, d, assertion, Encrypt(f, e, assertion, r, custom, issuedAt, nonce).value.token, now)
      == Err(Verify)
  {
    TokenUnderRing(f, e, d, assertion, r, custom, issuedAt, nonce, now);
  }

  /** Tokens made for one purpose are worthless for any other, even under the same ring, issuer and audience. */
  lemma PurposesAreSeparate<K(!new)>(
      f: Foreign<K>, e: Encryptor<K>, d: Decryptor<K>, purpose: string, other: string, r: RegisteredClaims,
      custom: Json, issuedAt: Time, nonce: nat, now: Time)
    requires Authentic(f) && purpose != other && Encrypt(f, e, purpose, r, custom, issuedAt, nonce).Ok?
    ensures Decrypt(f, d, other, Encrypt(f, e, purpose, r, custom, issuedAt, nonce).value.token, now) == Err(Verify)
  {
    var payload := f.printClaims(WithRegistered(f, e.issuer, e.audience, r, custom.fields, issuedAt));
    var token := f.encrypt(e.secretKey, payload, f.printFooter(e.keyId), purpose, nonce);
    assert Encrypt(f, e, purpose, r, custom, issuedAt, nonce).value.token == token;
    forall k, footer ensures f.decrypt(k, token, footer, other) == None {}
  }

  /**
    All conditions together, for any issuer and any verifier: a token is accepted if and only if the verifier holds the
    issuing key under the same id, and purpose, issuer, audience and time agree.
   */
  lemma AcceptedIff<K(!new)>(
      f: Foreign<K>, e: Encryptor<K>, d: Decryptor<K>, purpose: string, expected: string, r: RegisteredClaims,
      custom: Json, issuedAt: Time, nonce: nat, now: Time)
    requires Lawful(f) && Authentic(f) && Writable(issuedAt) && Writable(r.expiresAt) && Packable(r, custom, issuedAt)
    requires ClaimsReadBack(custom.fields)
    ensures Encrypt(f, e, purpose, r, custom, issuedAt, nonce).Ok?
    ensures Decrypt(f, d, expected, Encrypt(f, e, purpose, r, custom, issuedAt, nonce).value.token, now).Ok? <==>
      && !IsBlank(e.keyId) && e.keyId in d.keys && d.keys[e.keyId] == e.secretKey && purpose == expected
      && e.issuer == d.issuer != "" && e.audience == d.audience != ""
      && WholeSecond(issuedAt) <= now < WholeSecond(r.expiresAt)
  {
    var footer := f.printFooter(e.keyId);
    var payload := f.printClaims(WithRegistered(f, e.issuer, e.audience, r, custom.fields, issuedAt));
    var token := f.encrypt(e.secretKey, payload, footer, purpose, nonce);
    assert f.footerOf(token) == Some(footer) && f.parseFooter(footer) == Some(e.keyId);
    assert f.parseTime(f.formatTime(r.expiresAt)).Some?;
    if purpose != expected {
      PurposesAreSeparate(f, e, d, purpose, expected, r, custom, issuedAt, nonce, now);
    } else if !IsBlank(e.keyId) && e.keyId in d.keys {
      if d.keys[e.keyId] == e.secretKey {
        TokenUnderRing(f, e, d, purpose, r, custom, issuedAt, nonce, now);
      } else {
        assert f.decrypt(d.keys[e.keyId], token, footer, expected).None?;
      }
    }
  }
}
