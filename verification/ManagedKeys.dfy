/** The list of managed keys kept in a Node annotation: formatManagedKeys and parseManagedKeys. */
module ManagedKeys {

  // ----- Order on strings -----

  /** Lexicographic order, as sort.Strings uses it. */
  predicate Less(a: string, b: string) {
    if b == "" then false
    else if a == "" then true
    else a[0] < b[0] || (a[0] == b[0] && Less(a[1..], b[1..]))
  }

  lemma {:induction false} LessIsTotal(a: string, b: string)
    requires a != b
    ensures Less(a, b) || Less(b, a)
  {
    if a != "" && b != "" && a[0] == b[0] {
      assert a == [a[0]] + a[1..] && b == [b[0]] + b[1..];
      LessIsTotal(a[1..], b[1..]);
    }
  }

  lemma {:induction false} LessIsStrict(a: string, b: string)
    requires Less(a, b)
    ensures !Less(b, a)
  {
    if a != "" && b != "" && a[0] == b[0] {
      LessIsStrict(a[1..], b[1..]);
    }
  }

  lemma {:induction false} LessIsTransitive(a: string, b: string, c: string)
    requires Less(a, b) && Less(b, c)
    ensures Less(a, c)
  {
    if a != "" && b != "" && c != "" && a[0] == b[0] == c[0] {
      LessIsTransitive(a[1..], b[1..], c[1..]);
    }
  }

  // ----- Sorted key lists -----

  ghost predicate Increasing(l: seq<string>) { forall i, j | 0 <= i < j < |l| :: Less(l[i], l[j]) }

  ghost function Elements(l: seq<string>): set<string> { set i | 0 <= i < |l| :: l[i] }

  /** `l` with `k` put in its place. */
  function Insert(k: string, l: seq<string>): (r: seq<string>)
    ensures |r| == |l| + 1
  {
    if l == [] then [k]
    else if Less(k, l[0]) then [k] + l
    else [l[0]] + Insert(k, l[1..])
  }

  lemma {:induction false} InsertKeepsOrder(k: string, l: seq<string>)
    requires Increasing(l) && k !in l
    ensures Increasing(Insert(k, l)) && Elements(Insert(k, l)) == Elements(l) + {k}
  {
    var r := Insert(k, l);
    if l == [] {
      assert r == [k];
    } else if Less(k, l[0]) {
      forall i, j | 0 <= i < j < |r|
        ensures Less(r[i], r[j])
      {
        if i == 0 && j > 1 {
          LessIsTransitive(k, l[0], l[j - 1]);
        }
      }
      SplitElements(r);
    } else {
      LessIsTotal(k, l[0]);
      InsertKeepsOrder(k, l[1..]);
      var tail := Insert(k, l[1..]);
      assert r == [l[0]] + tail;
      SplitElements(r);
      SplitElements(l);
      forall j | 0 < j < |r|
        ensures Less(r[0], r[j])
      {
        assert r[j] == tail[j - 1] && tail[j - 1] in Elements(tail);
        if tail[j - 1] != k {
          var i :| 0 <= i < |l[1..]| && l[1..][i] == tail[j - 1];
          assert l[i + 1] == tail[j - 1];
        }
      }
      assert forall i, j | 0 < i < j < |r| :: r[i] == tail[i - 1] && r[j] == tail[j - 1];
    }
  }

  lemma SplitElements(l: seq<string>)
    requires l != []
    ensures Elements(l) == {l[0]} + Elements(l[1..])
  {
    forall x | x in Elements(l)
      ensures x in {l[0]} + Elements(l[1..])
    {
      var i :| 0 <= i < |l| && l[i] == x;
      if i > 0 {
        assert l[1..][i - 1] == x;
      }
    }
    forall x | x in Elements(l[1..])
      ensures x in Elements(l)
    {
      var i :| 0 <= i < |l[1..]| && l[1..][i] == x;
      assert l[i + 1] == x;
    }
  }

  /** The keys in increasing order. */
  ghost function Sorted(keys: set<string>): (l: seq<string>)
    ensures Increasing(l) && Elements(l) == keys
  {
    if keys == {} then []
    else
      var k :| k in keys;
      var rest := Sorted(keys - {k});
      assert forall x | x in rest :: x in Elements(rest);
      InsertKeepsOrder(k, rest);
      Insert(k, rest)
  }

  /** There is only one increasing list of a set of keys. */
  lemma {:induction false} IncreasingIsUnique(l: seq<string>, r: seq<string>)
    requires Increasing(l) && Increasing(r) && Elements(l) == Elements(r)
    ensures l == r
  {
    OnlyEmptyHasNone(l);
    OnlyEmptyHasNone(r);
    if l != [] {
      assert l[0] in Elements(l) && r[0] in Elements(r);
      var i :| 0 <= i < |r| && r[i] == l[0];
      var j :| 0 <= j < |l| && l[j] == r[0];
      if i > 0 && j > 0 {
        LessIsStrict(l[0], r[0]);
        assert false;
      }
      assert l[0] == r[0];
      SplitElements(l);
      SplitElements(r);
      HeadIsApart(l);
      HeadIsApart(r);
      assert Elements(l[1..]) == Elements(l) - {l[0]} == Elements(r[1..]);
      IncreasingIsUnique(l[1..], r[1..]);
    }
  }

  lemma OnlyEmptyHasNone(l: seq<string>)
    ensures l == [] <==> Elements(l) == {}
  {
    if l != [] {
      assert l[0] in Elements(l);
    }
  }

  lemma HeadIsApart(l: seq<string>)
    requires l != [] && Increasing(l)
    ensures l[0] !in Elements(l[1..])
  {
    if l[0] in Elements(l[1..]) {
      var i :| 0 <= i < |l[1..]| && l[1..][i] == l[0];
      assert Less(l[0], l[i + 1]);
      LessIsStrict(l[0], l[0]);
    }
  }

  // ----- Text -----

  function Join(l: seq<string>): string {
    if l == [] then "" else if |l| == 1 then l[0] else l[0] + "," + Join(l[1..])
  }

  /** strings.Split with a comma: one part more than there are commas. */
  function Split(s: string): (l: seq<string>)
    ensures l != []
  {
    if s == "" then [""]
    else
      var rest := Split(s[1..]);
      if s[0] == ',' then [""] + rest else [[s[0]] + rest[0]] + rest[1..]
  }

  function NonEmpty(l: seq<string>): seq<string> {
    if l == [] then []
    else NonEmpty(l[..|l| - 1]) + if l[|l| - 1] == "" then [] else [l[|l| - 1]]
  }

  ghost function FormatKeys(keys: set<string>): string { Join(Sorted(keys)) }

  function ParseKeys(s: string): seq<string> { if s == "" then [] else NonEmpty(Split(s)) }

  predicate GoodKey(k: string) { k != "" && ',' !in k }

  lemma {:induction false} SplitOfPlain(s: string)
    requires ',' !in s
    ensures Split(s) == [s]
  {
    if s != "" {
      SplitOfPlain(s[1..]);
      assert [s[0]] + s[1..] == s;
    }
  }

  lemma {:induction false} SplitAtComma(k: string, rest: string)
    requires ',' !in k
    ensures Split(k + "," + rest) == [k] + Split(rest)
  {
    var s := k + "," + rest;
    if k == "" {
      assert s[0] == ',' && s[1..] == rest;
    } else {
      assert s[0] == k[0] && s[1..] == k[1..] + "," + rest;
      SplitAtComma(k[1..], rest);
      assert [k[0]] + k[1..] == k;
      assert ([k[1..]] + Split(rest))[1..] == Split(rest);
    }
  }

  lemma {:induction false} SplitUndoesJoin(l: seq<string>)
    requires l != [] && forall i | 0 <= i < |l| :: ',' !in l[i]
    ensures Split(Join(l)) == l
  {
    if |l| == 1 {
      SplitOfPlain(l[0]);
    } else {
      SplitUndoesJoin(l[1..]);
      SplitAtComma(l[0], Join(l[1..]));
    }
  }

  lemma {:induction false} NonEmptyKeepsAll(l: seq<string>)
    requires forall i | 0 <= i < |l| :: l[i] != ""
    ensures NonEmpty(l) == l
  {
    if l != [] {
      NonEmptyKeepsAll(l[..|l| - 1]);
    }
  }

  lemma JoinOfGoodIsNotEmpty(l: seq<string>)
    requires l != [] && l[0] != ""
    ensures Join(l) != ""
  {
  }

  /** Round trip: parsing the text of a set of non-empty comma-free keys gives the keys in
      increasing order. */
  lemma ParseUndoesFormat(keys: set<string>)
    requires forall k | k in keys :: GoodKey(k)
    ensures ParseKeys(FormatKeys(keys)) == Sorted(keys)
    ensures Elements(ParseKeys(FormatKeys(keys))) == keys
  {
    var l := Sorted(keys);
    forall i | 0 <= i < |l|
      ensures GoodKey(l[i])
    {
      assert l[i] in Elements(l);
    }
    if l != [] {
      JoinOfGoodIsNotEmpty(l);
      SplitUndoesJoin(l);
      NonEmptyKeepsAll(l);
    }
  }

  // ----- The loops -----

  /** The text depends on the set of keys only, not on the order in which they are visited. */
  method FormatManagedKeys(m: map<string, string>) returns (s: string)
    ensures s == FormatKeys(m.Keys)
  {
    var keys: seq<string> := [];
    var rest := m.Keys;
    while rest != {}
      invariant rest <= m.Keys && Increasing(keys) && Elements(keys) == m.Keys - rest
    {
      var k :| k in rest;
      assert forall x | x in keys :: x in Elements(keys);
      InsertKeepsOrder(k, keys);
      keys := Insert(k, keys);
      rest := rest - {k};
    }
    IncreasingIsUnique(keys, Sorted(m.Keys));
    s := Join(keys);
  }

  /** Filter in place: `out` grows over the front of `parts` while `parts` is read.  It never
      overtakes the reader, so no part is lost before it is read. */
  method FilterInPlace(parts: array<string>) returns (n: nat)
    modifies parts
    ensures n <= parts.Length && parts[..n] == NonEmpty(old(parts[..]))
    ensures parts[n..] == old(parts[n..])
  {
    n := 0;
    ghost var all := parts[..];
    for i := 0 to parts.Length
      invariant n <= i
      invariant parts[..n] == NonEmpty(all[..i])
      invariant parts[i..] == all[i..]
      invariant forall j | n <= j < parts.Length :: parts[j] == all[j]
    {
      assert parts[i] == parts[i..][0] == all[i];
      assert all[..i + 1][..i] == all[..i];
      if parts[i] != "" {
        parts[n] := parts[i];
        n := n + 1;
      }
      assert parts[i + 1..] == all[i + 1..];
    }
    assert all[..parts.Length] == all;
  }

  method ParseManagedKeys(s: string) returns (keys: seq<string>)
    ensures keys == ParseKeys(s)
  {
    if s == "" {
      return [];
    }
    var split := Split(s);
    var parts := new string[|split|](i requires 0 <= i < |split| => split[i]);
    assert parts[..] == split;
    var n := FilterInPlace(parts);
    keys := parts[..n];
  }
}
