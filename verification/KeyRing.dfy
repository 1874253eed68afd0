/** Configured key rings: validation, the issuer's lookup of the active key, the verifier's map of all keys. */
module KeyRing {
  import opened Wrappers
  import opened Text

  datatype Key = Key(id: string, secret: string)

  datatype Config = Config(activeKeyId: string, keys: seq<Key>)

  datatype FieldError = BlankId(index: nat) | BadSecret(index: nat) | NoKeys | DuplicateIds | BlankActiveId
    | UnknownActiveId

  datatype Validation<T> = Valid(value: T) | Invalid(errors: seq<FieldError>)

  /** Turns the text of a secret into a symmetric key, if it is one. */
  type KeyReader<!K> = string -> Option<K>

  predicate UniqueIds(keys: seq<Key>) {
    forall i, j :: 0 <= i < j < |keys| ==> keys[i].id != keys[j].id
  }

  predicate Readable<K>(read: KeyReader<K>, keys: seq<Key>) {
    forall i :: 0 <= i < |keys| ==> read(keys[i].secret).Some?
  }

  predicate WellFormed<K>(read: KeyReader<K>, c: Config) {
    && UniqueIds(c.keys) && Readable(read, c.keys)
    && (forall i :: 0 <= i < |c.keys| ==> !IsBlank(c.keys[i].id))
    && exists i :: 0 <= i < |c.keys| && c.keys[i].id == c.activeKeyId
  }

  // ---------- validation ----------

  predicate KeyValid<K>(read: KeyReader<K>, k: Key) {
    !IsBlank(k.id) && !IsBlank(k.secret) && read(k.secret).Some?
  }

  function Trimmed(keys: seq<Key>): (r: seq<Key>)
    ensures |r| == |keys|
    ensures forall i :: 0 <= i < |keys| ==> r[i] == Key(Trim(keys[i].id), keys[i].secret)
  {
    seq(|keys|, i requires 0 <= i < |keys| => Key(Trim(keys[i].id), keys[i].secret))
  }

  method ValidateKey<K>(read: KeyReader<K>, raw: Key, index: nat) returns (r: Validation<Key>)
    ensures r.Valid? <==> KeyValid(read, raw)
    ensures r.Valid? ==> r.value == Key(Trim(raw.id), raw.secret)
    ensures r.Invalid? ==>
      r.errors == (if IsBlank(raw.id) then [BlankId(index)] else [])
                  + if IsBlank(raw.secret) || read(raw.secret).None? then [BadSecret(index)] else []
    ensures r.Valid? <==> !IsBlank(raw.id) && !IsBlank(raw.secret) && read(raw.secret).Some?
  {
    var errors: seq<FieldError> := [];
    if IsBlank(raw.id) {
      errors := errors + [BlankId(index)];
    }
    if IsBlank(raw.secret) || read(raw.secret).None? {
      errors := errors + [BadSecret(index)];
    }
    r := if errors == [] then Valid(Key(Trim(raw.id), raw.secret)) else Invalid(errors);
  }

  /** One error if and only if some id occurs twice. */
  method DuplicateIdErrors(keys: seq<Key>) returns (errors: seq<FieldError>)
    ensures errors == if UniqueIds(keys) then [] else [DuplicateIds]
  {
    var seen: set<string> := {};
    var duplicates: set<string> := {};
    for n := 0 to |keys|
      invariant seen == set i | 0 <= i < n :: keys[i].id
      invariant duplicates == {} <==> forall i, j :: 0 <= i < j < n ==> keys[i].id != keys[j].id
    {
      if keys[n].id in seen {
        duplicates := duplicates + {keys[n].id};
        assert keys[n].id in duplicates;
      }
      seen := seen + {keys[n].id};
    }
    errors := if duplicates != {} then [DuplicateIds] else [];
  }

  /** The errors of each key, in order. */
  function KeyErrors<K>(read: KeyReader<K>, raw: seq<Key>): seq<FieldError> {
    if raw == [] then []
    else
      var n := |raw| - 1;
      KeyErrors(read, raw[..n])
        + (if IsBlank(raw[n].id) then [BlankId(n)] else [])
        + (if IsBlank(raw[n].secret) || read(raw[n].secret).None? then [BadSecret(n)] else [])
  }

  /** The keys without errors, trimmed, in order. */
  function ValidOnes<K>(read: KeyReader<K>, raw: seq<Key>): seq<Key> {
    if raw == [] then []
    else
      var n := |raw| - 1;
      ValidOnes(read, raw[..n]) + if KeyValid(read, raw[n]) then [Key(Trim(raw[n].id), raw[n].secret)] else []
  }

  /** Every error names the key it is about, and is there for a reason. */
  lemma {:induction false} ErrorsExactly<K>(read: KeyReader<K>, raw: seq<Key>, i: nat)
    ensures BlankId(i) in KeyErrors(read, raw) <==> i < |raw| && IsBlank(raw[i].id)
    ensures BadSecret(i) in KeyErrors(read, raw) <==>
      i < |raw| && (IsBlank(raw[i].secret) || read(raw[i].secret).None?)
    decreases |raw|
  {
    if raw != [] {
      ErrorsExactly(read, raw[..|raw| - 1], i);
    }
  }

  lemma {:induction false} NoErrorsIff<K>(read: KeyReader<K>, raw: seq<Key>)
    ensures KeyErrors(read, raw) == [] <==> forall i :: 0 <= i < |raw| ==> KeyValid(read, raw[i])
    decreases |raw|
  {
    if raw != [] {
      var n := |raw| - 1;
      NoErrorsIff(read, raw[..n]);
      assert KeyValid(read, raw[n]) <==>
        !IsBlank(raw[n].id) && !(IsBlank(raw[n].secret) || read(raw[n].secret).None?);
      assert forall i :: 0 <= i < n ==> raw[i] == raw[..n][i];
    }
  }

  lemma OneKeyMore<K>(read: KeyReader<K>, raw: seq<Key>, n: nat)
    requires n < |raw|
    ensures KeyErrors(read, raw[..n + 1]) == KeyErrors(read, raw[..n])
      + ((if IsBlank(raw[n].id) then [BlankId(n)] else [])
         + if IsBlank(raw[n].secret) || read(raw[n].secret).None? then [BadSecret(n)] else [])
    ensures ValidOnes(read, raw[..n + 1]) == ValidOnes(read, raw[..n])
      + if KeyValid(read, raw[n]) then [Key(Trim(raw[n].id), raw[n].secret)] else []
    ensures KeyValid(read, raw[n]) ==> KeyErrors(read, raw[..n + 1]) == KeyErrors(read, raw[..n])
    ensures !KeyValid(read, raw[n]) ==> ValidOnes(read, raw[..n + 1]) == ValidOnes(read, raw[..n])
  {
    var longer := raw[..n + 1];
    assert longer[..|longer| - 1] == raw[..n] && longer[|longer| - 1] == raw[n];
  }

  lemma ValidOneMore<K>(read: KeyReader<K>, raw: seq<Key>, n: nat)
    requires n < |raw| && KeyValid(read, raw[n])
    ensures ValidOnes(read, raw[..n + 1]) == ValidOnes(read, raw[..n]) + [Key(Trim(raw[n].id), raw[n].secret)]
  {
    OneKeyMore(read, raw, n);
  }

  lemma OneTrimmedMore(raw: seq<Key>, n: nat)
    requires n < |raw|
    ensures Trimmed(raw)[..n + 1] == Trimmed(raw)[..n] + [Key(Trim(raw[n].id), raw[n].secret)]
  {}

  lemma {:induction false} AllValid<K>(read: KeyReader<K>, raw: seq<Key>, n: nat)
    requires n <= |raw| && forall i :: 0 <= i < n ==> KeyValid(read, raw[i])
    ensures ValidOnes(read, raw[..n]) == Trimmed(raw)[..n]
  {
    if n > 0 {
      var m := n - 1;
      AllValid(read, raw, m);
      assert KeyValid(read, raw[m]);
      ValidOneMore(read, raw, m);
      OneTrimmedMore(raw, m);
    }
  }

  /** The loop over the keys: errors and keys are collected side by side. */
  method CollectKeys<K>(read: KeyReader<K>, raw: seq<Key>) returns (errors: seq<FieldError>, validated: seq<Key>)
    ensures errors == KeyErrors(read, raw) && validated == ValidOnes(read, raw)
  {
    errors, validated := [], [];
    for n := 0 to |raw|
      invariant errors == KeyErrors(read, raw[..n]) && validated == ValidOnes(read, raw[..n])
    {
      OneKeyMore(read, raw, n);
      var key := ValidateKey(read, raw[n], n);
      match key
      case Valid(k) => validated := validated + [k];
      case Invalid(keyErrors) => errors := errors + keyErrors;
    }
    assert raw[..|raw|] == raw;
  }

  method ValidateKeys<K>(read: KeyReader<K>, raw: seq<Key>) returns (r: Validation<seq<Key>>)
    ensures r.Valid? <==>
      raw != [] && (forall i :: 0 <= i < |raw| ==> KeyValid(read, raw[i])) && UniqueIds(Trimmed(raw))
    ensures r.Valid? ==> r.value == Trimmed(raw)
    ensures r.Invalid? ==>
      r.errors == KeyErrors(read, raw) + (if ValidOnes(read, raw) == [] then [NoKeys] else [])
                  + if UniqueIds(ValidOnes(read, raw)) then [] else [DuplicateIds]
  {
    var errors, validated := CollectKeys(read, raw);
    NoErrorsIff(read, raw);
    if errors == [] {
      AllValid(read, raw, |raw|);
      assert raw[..|raw|] == raw && Trimmed(raw)[..|raw|] == Trimmed(raw);
    }
    if validated == [] {
      errors := errors + [NoKeys];
    }
    var duplicates := DuplicateIdErrors(validated);
    errors := errors + duplicates;
    r := if errors == [] then Valid(validated) else Invalid(errors);
  }

  /** What validation accepts is well formed: unique ids that are not blank, readable secrets, a known active key. */
  method ValidateConfig<K>(read: KeyReader<K>, raw: Config) returns (r: Validation<Config>)
    ensures r.Valid? ==> WellFormed(read, r.value) && r.value == Config(Trim(raw.activeKeyId), Trimmed(raw.keys))
    ensures r.Valid? <==>
      && (forall i :: 0 <= i < |raw.keys| ==> KeyValid(read, raw.keys[i])) && UniqueIds(Trimmed(raw.keys))
      && (forall i :: 0 <= i < |raw.keys| ==> !IsBlank(raw.keys[i].id) && !IsBlank(raw.keys[i].secret))
      && !IsBlank(raw.activeKeyId) && (exists i :: 0 <= i < |raw.keys| && Trim(raw.keys[i].id) == Trim(raw.activeKeyId))
  {
    var keys := ValidateKeys(read, raw.keys);
    if IsBlank(raw.activeKeyId) {
      return Invalid([BlankActiveId] + if keys.Invalid? then keys.errors else []);
    }
    if keys.Invalid? {
      return Invalid(keys.errors);
    }
    var c := Config(Trim(raw.activeKeyId), keys.value);
    var known := AnyKeyHasId(c.keys, c.activeKeyId);
    if !known {
      ActiveIsTrimmed(raw.keys, c.activeKeyId);
      return Invalid([UnknownActiveId]);
    }
    ActiveIsTrimmed(raw.keys, c.activeKeyId);
    TrimmedWellFormed(read, raw.keys, c.activeKeyId);
    r := Valid(c);
  }

  lemma ActiveIsTrimmed(keys: seq<Key>, id: string)
    ensures (exists i :: 0 <= i < |keys| && Trimmed(keys)[i].id == id) <==>
      (exists i :: 0 <= i < |keys| && Trim(keys[i].id) == id)
  {
    if i :| 0 <= i < |keys| && Trimmed(keys)[i].id == id {
      assert Trim(keys[i].id) == id;
    }
    if i :| 0 <= i < |keys| && Trim(keys[i].id) == id {
      assert Trimmed(keys)[i].id == id;
    }
  }

  lemma TrimmedWellFormed<K>(read: KeyReader<K>, keys: seq<Key>, id: string)
    requires (forall i :: 0 <= i < |keys| ==> KeyValid(read, keys[i])) && UniqueIds(Trimmed(keys))
    requires exists i :: 0 <= i < |keys| && Trimmed(keys)[i].id == id
    ensures WellFormed(read, Config(id, Trimmed(keys)))
  {}

  method AnyKeyHasId(keys: seq<Key>, id: string) returns (found: bool)
    ensures found <==> exists i :: 0 <= i < |keys| && keys[i].id == id
  {
    for i := 0 to |keys|
      invariant forall j :: 0 <= j < i ==> keys[j].id != id
    {
      if keys[i].id == id {
        return true;
      }
    }
    found := false;
  }

  // ---------- two ways to look up a key ----------

  /** The issuer takes the first key with the active id. */
  function FirstKey(keys: seq<Key>, id: string): Option<Key> {
    if keys == [] then None else if keys[0].id == id then Some(keys[0]) else FirstKey(keys[1..], id)
  }

  /** The verifier inserts every key into a map, so the last one of an id stays. */
  function AllKeys<K>(read: KeyReader<K>, keys: seq<Key>): map<string, K>
    requires Readable(read, keys)
  {
    if keys == [] then map[]
    else
      var last := keys[|keys| - 1];
      AllKeys(read, keys[..|keys| - 1])[last.id := read(last.secret).value]
  }

  method FillMap<K>(read: KeyReader<K>, keys: seq<Key>) returns (r: Option<map<string, K>>)
    ensures r.Some? <==> Readable(read, keys)
    ensures r.Some? ==> r.value == AllKeys(read, keys)
  {
    var m: map<string, K> := map[];
    for n := 0 to |keys|
      invariant Readable(read, keys[..n]) && m == AllKeys(read, keys[..n])
    {
      var k := read(keys[n].secret);
      if k.None? {
        return None;
      }
      assert keys[..n + 1][..n] == keys[..n] && keys[..n + 1][n] == keys[n];
      m := m[keys[n].id := k.value];
    }
    assert keys[..|keys|] == keys;
    r := Some(m);
  }

  lemma {:induction false} FirstKeyAt(keys: seq<Key>, i: nat)
    requires UniqueIds(keys) && i < |keys|
    ensures FirstKey(keys, keys[i].id) == Some(keys[i])
  {
    if i > 0 {
      FirstKeyAt(keys[1..], i - 1);
    }
  }

  lemma {:induction false} FirstKeyIs(keys: seq<Key>, id: string)
    ensures match FirstKey(keys, id)
            case None => forall i :: 0 <= i < |keys| ==> keys[i].id != id
            case Some(k) =>
              exists i :: 0 <= i < |keys| && keys[i] == k && k.id == id && forall j :: 0 <= j < i ==> keys[j].id != id
  {
    if keys != [] && keys[0].id != id {
      FirstKeyIs(keys[1..], id);
      match FirstKey(keys, id)
      case None =>
        assert forall i :: 0 < i < |keys| ==> keys[i] == keys[1..][i - 1];
      case Some(k) =>
        var i :| 0 <= i < |keys[1..]| && keys[1..][i] == k && k.id == id
          && forall j :: 0 <= j < i ==> keys[1..][j].id != id;
        assert keys[i + 1] == k && forall j :: 0 < j < i + 1 ==> keys[j] == keys[1..][j - 1];
    }
  }

  lemma {:induction false} AllKeysAt<K>(read: KeyReader<K>, keys: seq<Key>, i: nat)
    requires UniqueIds(keys) && Readable(read, keys) && i < |keys|
    ensures keys[i].id in AllKeys(read, keys) && AllKeys(read, keys)[keys[i].id] == read(keys[i].secret).value
    decreases |keys|
  {
    if i < |keys| - 1 {
      AllKeysAt(read, keys[..|keys| - 1], i);
    }
  }

  lemma {:induction false} AllKeysOnly<K>(read: KeyReader<K>, keys: seq<Key>, id: string)
    requires Readable(read, keys)
    ensures id in AllKeys(read, keys) <==> FirstKey(keys, id).Some?
    ensures id in AllKeys(read, keys) <==> exists i :: 0 <= i < |keys| && keys[i].id == id
    decreases |keys|
  {
    if keys != [] {
      var n := |keys| - 1;
      AllKeysOnly(read, keys[..n], id);
      FirstKeyPrefix(keys, id);
      if keys[n].id == id {
        assert keys[n].id == id;
      } else if exists i :: 0 <= i < |keys| && keys[i].id == id {
        var i :| 0 <= i < |keys| && keys[i].id == id;
        assert keys[..n][i].id == id;
      }
    }
  }

  lemma {:induction false} FirstKeyPrefix(keys: seq<Key>, id: string)
    requires keys != []
    ensures FirstKey(keys, id).Some? <==> FirstKey(keys[..|keys| - 1], id).Some? || keys[|keys| - 1].id == id
  {
    if |keys| > 1 {
      FirstKeyPrefix(keys[1..], id);
      assert keys[1..][..|keys| - 2] == keys[..|keys| - 1][1..];
    }
  }

  /** On a well-formed ring the two lookups agree on every id. */
  lemma LookupsAgree<K>(read: KeyReader<K>, c: Config, id: string)
    requires WellFormed(read, c)
    ensures id in AllKeys(read, c.keys) <==> FirstKey(c.keys, id).Some?
    ensures id in AllKeys(read, c.keys) ==> Some(AllKeys(read, c.keys)[id]) == read(FirstKey(c.keys, id).value.secret)
  {
    AllKeysOnly(read, c.keys, id);
    if id in AllKeys(read, c.keys) {
      var i :| 0 <= i < |c.keys| && c.keys[i].id == id;
      FirstKeyAt(c.keys, i);
      AllKeysAt(read, c.keys, i);
    }
  }

  /** Without unique ids they disagree: the issuer's first key is not the verifier's last. */
  lemma DuplicatesDisagree<K>(read: KeyReader<K>, id: string, first: string, last: string)
    requires read(first).Some? && read(last).Some? && read(first) != read(last)
    ensures var keys := [Key(id, first), Key(id, last)];
      Readable(read, keys) && FirstKey(keys, id) == Some(keys[0])
        && Some(AllKeys(read, keys)[id]) != read(keys[0].secret)
  {
    var keys := [Key(id, first), Key(id, last)];
    assert keys[..1] == [Key(id, first)];
  }
}
