/** The order in which strings sort, and strictly sorted lists as canonical forms of finite sets. */
module Ordering {
  predicate Less(a: string, b: string) {
    if b == "" then false
    else if a == "" then true
    else a[0] < b[0] || (a[0] == b[0] && Less(a[1..], b[1..]))
  }

  lemma {:induction false} LessTransitive(a: string, b: string, c: string)
    requires Less(a, b) && Less(b, c)
    ensures Less(a, c)
  {
    if a != "" && a[0] == b[0] == c[0] {
      LessTransitive(a[1..], b[1..], c[1..]);
    }
  }

  lemma {:induction false} LessIrreflexive(a: string)
    ensures !Less(a, a)
  {
    if a != "" {
      LessIrreflexive(a[1..]);
    }
  }

  lemma {:induction false} LessTotal(a: string, b: string)
    ensures Less(a, b) || a == b || Less(b, a)
  {
    if a != "" && b != "" && a[0] == b[0] {
      LessTotal(a[1..], b[1..]);
      if a[1..] == b[1..] {
        assert a == [a[0]] + a[1..] && b == [b[0]] + b[1..];
      }
    }
  }

  predicate AtMost(a: string, b: string) {
    Less(a, b) || a == b
  }

  lemma AtMostTransitive(a: string, b: string, c: string)
    requires AtMost(a, b) && AtMost(b, c)
    ensures AtMost(a, c)
  {
    if Less(a, b) && Less(b, c) {
      LessTransitive(a, b, c);
    }
  }

  predicate StrictlySorted(s: seq<string>) {
    forall i, j :: 0 <= i < j < |s| ==> Less(s[i], s[j])
  }

  predicate Sorted(s: seq<string>) {
    forall i, j :: 0 <= i < j < |s| ==> AtMost(s[i], s[j])
  }

  function Elements(s: seq<string>): set<string> {
    set x | x in s
  }

  lemma NonEmptyElements(s: seq<string>)
    ensures s != [] ==> Elements(s) != {}
  {
    if s != [] {
      assert s[0] in Elements(s);
    }
  }

  lemma ElementsAppend(s: seq<string>, x: string)
    ensures Elements(s + [x]) == Elements(s) + {x}
  {
    assert forall y :: y in s + [x] <==> y in s || y == x;
  }

  lemma LeastFirst(s: seq<string>, x: string)
    requires StrictlySorted(s) && x in s && x != s[0]
    ensures Less(s[0], x)
  {}

  /** A finite set of strings has exactly one strictly sorted list. */
  lemma {:induction false} CanonicalUnique(a: seq<string>, b: seq<string>)
    requires StrictlySorted(a) && StrictlySorted(b) && Elements(a) == Elements(b)
    ensures a == b
    decreases |a|
  {
    NonEmptyElements(b);
    if a != [] {
      assert a[0] in Elements(a);
      SameFirst(a, b);
      TailElements(a);
      TailElements(b);
      CanonicalUnique(a[1..], b[1..]);
      assert a == [a[0]] + a[1..] && b == [b[0]] + b[1..];
    }
  }

  lemma SameFirst(a: seq<string>, b: seq<string>)
    requires StrictlySorted(a) && StrictlySorted(b) && Elements(a) == Elements(b) && a != []
    ensures b != [] && a[0] == b[0]
  {
    assert a[0] in Elements(b);
    assert b[0] in Elements(a);
    if a[0] != b[0] {
      LeastFirst(a, b[0]);
      LeastFirst(b, a[0]);
      LessTransitive(a[0], b[0], a[0]);
      LessIrreflexive(a[0]);
      assert false;
    }
  }

  lemma TailElements(a: seq<string>)
    requires StrictlySorted(a) && a != []
    ensures StrictlySorted(a[1..]) && Elements(a[1..]) == Elements(a) - {a[0]}
  {
    LessIrreflexive(a[0]);
    forall x | x in Elements(a) && x != a[0] ensures x in a[1..] {
      var i :| 0 <= i < |a| && a[i] == x;
      assert a[1..][i - 1] == x;
    }
    forall i | 0 <= i < |a[1..]| ensures a[1..][i] != a[0] && a[1..][i] in Elements(a) {
      assert a[1..][i] == a[i + 1];
    }
  }

  // ---------- sort, then drop equal neighbours ----------

  lemma InsertedSorted(s: seq<string>, i: nat, x: string)
    requires Sorted(s) && i <= |s|
    requires forall k :: 0 <= k < i ==> AtMost(s[k], x)
    requires forall k :: i <= k < |s| ==> AtMost(x, s[k])
    ensures Sorted(s[..i] + [x] + s[i..])
  {
    var r := s[..i] + [x] + s[i..];
    forall j, k | 0 <= j < k < |r| ensures AtMost(r[j], r[k]) {
      assert r[j] == if j < i then s[j] else if j == i then x else s[j - 1];
      assert r[k] == if k < i then s[k] else if k == i then x else s[k - 1];
    }
  }

  lemma InsertedElements(s: seq<string>, i: nat, x: string)
    requires i <= |s|
    ensures multiset(s[..i] + [x] + s[i..]) == multiset(s) + multiset{x}
  {
    assert s == s[..i] + s[i..];
  }

  method InsertSorted(s: seq<string>, x: string) returns (r: seq<string>)
    requires Sorted(s)
    ensures Sorted(r) && multiset(r) == multiset(s) + multiset{x}
  {
    var i := |s|;
    while i > 0 && Less(x, s[i - 1])
      invariant 0 <= i <= |s|
      invariant forall k :: i <= k < |s| ==> AtMost(x, s[k])
    {
      i := i - 1;
    }
    forall k | 0 <= k < i ensures AtMost(s[k], x) {
      LessTotal(x, s[i - 1]);
      AtMostTransitive(s[k], s[i - 1], x);
    }
    InsertedSorted(s, i, x);
    InsertedElements(s, i, x);
    r := s[..i] + [x] + s[i..];
  }

  method Sort(s: seq<string>) returns (r: seq<string>)
    ensures Sorted(r) && multiset(r) == multiset(s)
  {
    r := [];
    for i := 0 to |s|
      invariant Sorted(r) && multiset(r) == multiset(s[..i])
    {
      assert s[..i + 1] == s[..i] + [s[i]];
      r := InsertSorted(r, s[i]);
    }
    assert s[..|s|] == s;
  }

  method Dedup(s: seq<string>) returns (r: seq<string>)
    requires Sorted(s)
    ensures StrictlySorted(r) && Elements(r) == Elements(s)
  {
    r := [];
    for i := 0 to |s|
      invariant StrictlySorted(r) && Elements(r) == Elements(s[..i])
      invariant r == [] <==> i == 0
      invariant i > 0 ==> r[|r| - 1] == s[i - 1]
    {
      assert s[..i + 1] == s[..i] + [s[i]];
      ElementsAppend(s[..i], s[i]);
      ElementsAppend(r, s[i]);
      if r == [] || r[|r| - 1] != s[i] {
        if r != [] {
          assert Less(r[|r| - 1], s[i]);
          forall k | 0 <= k < |r| ensures Less(r[k], s[i]) {
            if k < |r| - 1 {
              LessTransitive(r[k], r[|r| - 1], s[i]);
            }
          }
        }
        r := r + [s[i]];
      }
    }
    assert s[..|s|] == s;
  }
}
