/** JSON values and the field readers that serde derives for structs. */
module Json {
  import opened Numbers
  import opened Wrappers
  import Uuids

  datatype Json =
    | Null
    | Bool(flag: bool)
    | Num(n: int)
    | Str(s: string)
    | Arr(items: seq<Json>)
    | Obj(fields: map<string, Json>)

  /** Values that are printed and read back unchanged: 64-bit integers, and no more than `depth` levels of nesting. */
  predicate ReadsBack(v: Json, depth: nat)
    decreases depth
  {
    match v
    case Null => true
    case Bool(_) => true
    case Str(_) => true
    case Num(n) => I64_MIN <= n <= U64_MAX
    case Arr(items) => depth > 0 && forall i :: 0 <= i < |items| ==> ReadsBack(items[i], depth - 1)
    case Obj(fields) => depth > 0 && forall k :: k in fields ==> ReadsBack(fields[k], depth - 1)
  }

  function Zip(names: seq<string>, items: seq<Json>): map<string, Json>
    requires |names| == |items|
  {
    if names == [] then map[] else Zip(names[1..], items[1..])[names[0] := items[0]]
  }

  lemma {:induction false} ZipLookup(names: seq<string>, items: seq<Json>, i: nat)
    requires |names| == |items| && i < |names| && forall j, k :: 0 <= j < k < |names| ==> names[j] != names[k]
    ensures names[i] in Zip(names, items) && Zip(names, items)[names[i]] == items[i]
    decreases |names|
  {
    if i > 0 {
      ZipLookup(names[1..], items[1..], i - 1);
      assert names[1..][i - 1] == names[i] && items[1..][i - 1] == items[i] && names[0] != names[i];
    }
  }

  /** The map that takes each name to its item, and has no other names. */
  lemma ZipIs(names: seq<string>, items: seq<Json>, f: map<string, Json>)
    requires |names| == |items| && forall j, k :: 0 <= j < k < |names| ==> names[j] != names[k]
    requires forall i :: 0 <= i < |names| ==> names[i] in f && f[names[i]] == items[i]
    requires forall k :: k in f ==> k in names
    ensures Zip(names, items) == f
  {
    forall i | 0 <= i < |names| ensures names[i] in Zip(names, items) && Zip(names, items)[names[i]] == items[i] {
      ZipLookup(names, items, i);
    }
    forall k | k in Zip(names, items) ensures k in names {
      ZipKeys(names, items, k);
    }
  }

  lemma {:induction false} ZipKeys(names: seq<string>, items: seq<Json>, k: string)
    requires |names| == |items| && k in Zip(names, items)
    ensures k in names
    decreases |names|
  {
    if k != names[0] {
      ZipKeys(names[1..], items[1..], k);
    }
  }

  /**
    The fields of a struct read from `v`: an object, or an array with one item per field in
    declaration order. A strict struct refuses fields it does not know.
   */
  function StructFields(v: Json, names: seq<string>, strict: bool): Option<map<string, Json>> {
    match v
    case Obj(fields) => if strict && exists k :: k in fields && k !in names then None else Some(fields)
    case Arr(items) => if |items| == |names| then Some(Zip(names, items)) else None
    case _ => None
  }

  function Lookup(fields: map<string, Json>, name: string): Json {
    if name in fields then fields[name] else Null
  }

  function AsString(v: Json): Option<string> {
    if v.Str? then Some(v.s) else None
  }

  function AsUuid(v: Json): Option<Uuids.Uuid> {
    if v.Str? then Uuids.Parse(v.s) else None
  }

  /** `Some(None)` is a field that is absent or null; `None` is a malformed one. */
  function AsOptionalUuid(v: Json): Option<Option<Uuids.Uuid>> {
    if v.Null? then Some(None)
    else match AsUuid(v)
         case Some(u) => Some(Some(u))
         case None => None
  }

  function AsOptionalString(v: Json): Option<Option<string>> {
    if v.Null? then Some(None) else if v.Str? then Some(Some(v.s)) else None
  }

  function AsInt(v: Json, low: int, high: int): Option<int> {
    if v.Num? && low <= v.n <= high then Some(v.n) else None
  }

  function OptionalUuid(u: Option<Uuids.Uuid>): Json {
    match u
    case Some(id) => Str(Uuids.Format(id))
    case None => Null
  }

  lemma OptionalUuidRoundTrip(u: Option<Uuids.Uuid>)
    ensures AsOptionalUuid(OptionalUuid(u)) == Some(u)
  {
    if u.Some? {
      Uuids.ParseFormat(u.value);
    }
  }
}
