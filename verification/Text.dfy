/** Strings as the repository's programs compare them. */
module Text {

  /** The lexicographic order of Go's string comparison. */
  predicate Less(a: string, b: string) {
    b != [] && (a == [] || a[0] < b[0] || (a[0] == b[0] && Less(a[1..], b[1..])))
  }

  lemma {:induction false} LessIrreflexive(a: string)
    ensures !Less(a, a)
  {
    if a != [] { LessIrreflexive(a[1..]); }
  }

  lemma {:induction false} LessTransitive(a: string, b: string, c: string)
    requires Less(a, b) && Less(b, c)
    ensures Less(a, c)
  {
    if a != [] && a[0] == b[0] && b[0] == c[0] { LessTransitive(a[1..], b[1..], c[1..]); }
  }

  lemma {:induction false} LessTotal(a: string, b: string)
    ensures Less(a, b) || a == b || Less(b, a)
    ensures !(Less(a, b) && Less(b, a)) && (a == b ==> !Less(a, b))
  {
    if a != [] && b != [] && a[0] == b[0] {
      LessTotal(a[1..], b[1..]);
      assert a == [a[0]] + a[1..] && b == [b[0]] + b[1..];
    } else {
      LessIrreflexive(a);
    }
  }

  /** The first string ends, or has the smaller character, where the two first differ. */
  lemma LessIs(a: string, b: string)
    ensures Less(a, b) <==> exists k: nat :: DiffersAt(a, b, k) && (k == |a| || a[k] < b[k])
  {
    if Less(a, b) { var k := LessDiffers(a, b); }
    if k: nat :| DiffersAt(a, b, k) && (k == |a| || a[k] < b[k]) { DifferenceDecides(a, b, k); }
  }

  lemma {:induction false} LessDiffers(a: string, b: string) returns (k: nat)
    requires Less(a, b)
    ensures DiffersAt(a, b, k) && (k == |a| || a[k] < b[k])
  {
    if a == [] || a[0] != b[0] {
      k := 0;
    } else {
      k := LessDiffers(a[1..], b[1..]);
      assert a[..k + 1] == [a[0]] + a[1..][..k] && b[..k + 1] == [b[0]] + b[1..][..k];
      k := k + 1;
    }
  }

  lemma {:induction false} DifferenceDecides(a: string, b: string, k: nat)
    requires DiffersAt(a, b, k) && (k == |a| || a[k] < b[k])
    ensures Less(a, b)
  {
    if k > 0 {
      SameStart(a, b, k);
      assert a[1..][..k - 1] == a[..k][1..] && b[1..][..k - 1] == b[..k][1..];
      DifferenceDecides(a[1..], b[1..], k - 1);
    }
  }

  lemma SameStart(a: string, b: string, k: nat)
    requires DiffersAt(a, b, k)
    ensures k > 0 ==> a != [] && b != [] && a[0] == b[0]
  {
    if k > 0 { assert a[0] == a[..k][0] && b[0] == b[..k][0]; }
  }

  predicate DiffersAt(a: string, b: string, k: nat) { k <= |a| && k < |b| && a[..k] == b[..k] && (k < |a| ==> a[k] != b[k]) }

  // ---------- Sorted keys ----------

  predicate Ascending(keys: seq<string>) { forall i, j :: 0 <= i < j < |keys| ==> Less(keys[i], keys[j]) }

  /** The keys of a set in order. */
  ghost predicate Sorts(keys: seq<string>, all: set<string>) { Ascending(keys) && forall k :: k in keys <==> k in all }

  function InsertKey(keys: seq<string>, k: string): seq<string> {
    if keys == [] || Less(k, keys[0]) then [k] + keys else [keys[0]] + InsertKey(keys[1..], k)
  }

  lemma {:induction false} InsertKeyOk(keys: seq<string>, k: string)
    requires Ascending(keys) && k !in keys
    ensures Ascending(InsertKey(keys, k)) && forall x :: x in InsertKey(keys, k) <==> x in keys || x == k
  {
    if keys != [] {
      LessTotal(k, keys[0]);
      if Less(k, keys[0]) {
        forall i | 0 <= i < |keys| ensures Less(k, keys[i]) { if i > 0 { LessTransitive(k, keys[0], keys[i]); } }
      } else {
        InsertKeyOk(keys[1..], k);
        var rest := InsertKey(keys[1..], k);
        assert keys == [keys[0]] + keys[1..];
        forall i | 0 <= i < |rest| ensures Less(keys[0], rest[i]) { assert rest[i] in rest; }
      }
    }
  }

  /** Collects the keys of a map in whatever order it is walked, and sorts them. */
  method SortKeys(all: set<string>) returns (keys: seq<string>)
    ensures Sorts(keys, all)
  {
    keys := [];
    var left := all;
    while left != {}
      invariant left <= all && Ascending(keys) && forall k :: k in keys <==> k in all && k !in left
      decreases |left|
    {
      var k :| k in left;
      InsertKeyOk(keys, k);
      keys := InsertKey(keys, k);
      left := left - {k};
    }
  }

  /** There is one sorted list of a set's keys. */
  lemma {:induction false} SortsIsUnique(a: seq<string>, b: seq<string>)
    requires Ascending(a) && Ascending(b) && forall k :: k in a <==> k in b
    ensures a == b
  {
    assert a != [] ==> a[0] in a;
    assert b != [] ==> b[0] in b;
    if a != [] && b != [] {
      SameHead(a, b);
      TailIn(a, b);
      TailIn(b, a);
      SortsIsUnique(a[1..], b[1..]);
    }
  }

  lemma SameHead(a: seq<string>, b: seq<string>)
    requires Ascending(a) && Ascending(b) && a != [] && b != [] && a[0] in b && b[0] in a
    ensures a[0] == b[0]
  {
    var i :| 0 <= i < |b| && b[i] == a[0];
    var j :| 0 <= j < |a| && a[j] == b[0];
    LessTotal(a[0], b[0]);
  }

  lemma TailIn(a: seq<string>, b: seq<string>)
    requires Ascending(a) && a != [] && b != [] && a[0] == b[0] && forall k :: k in a ==> k in b
    ensures forall k :: k in a[1..] ==> k in b[1..]
  {
    forall k | k in a[1..] ensures k in b[1..] {
      var i :| 0 <= i < |a[1..]| && a[1..][i] == k;
      assert a[i + 1] in a && Less(a[0], a[i + 1]);
      LessIrreflexive(k);
      assert k in b && k != b[0];
      assert b == [b[0]] + b[1..];
    }
  }

  // ---------- Splitting at a character ----------

  predicate Has(s: string, c: char) { exists i :: 0 <= i < |s| && s[i] == c }

  lemma HasAppend(a: string, b: string, c: char)
    ensures Has(a + b, c) <==> Has(a, c) || Has(b, c)
  {
    if i :| 0 <= i < |a| && a[i] == c { assert (a + b)[i] == c; }
    if i :| 0 <= i < |b| && b[i] == c { assert (a + b)[|a| + i] == c; }
  }

  /** strings.IndexByte. */
  function IndexOf(s: string, c: char): int {
    if s == "" then -1
    else if s[0] == c then 0
    else
      var rest := IndexOf(s[1..], c);
      if rest < 0 then -1 else rest + 1
  }

  lemma {:induction false} IndexOfIs(s: string, c: char)
    ensures IndexOf(s, c) < 0 <==> !Has(s, c)
    ensures -1 <= IndexOf(s, c) < |s|
    ensures IndexOf(s, c) >= 0 ==> s[IndexOf(s, c)] == c && !Has(s[..IndexOf(s, c)], c)
  {
    if s != "" && s[0] != c {
      IndexOfIs(s[1..], c);
      if i :| 0 <= i < |s[1..]| && s[1..][i] == c { assert s[i + 1] == c; }
      if i :| 0 <= i < |s| && s[i] == c { assert s[1..][i - 1] == c; }
      var n := IndexOf(s, c);
      if n >= 0 { assert s[..n] == [s[0]] + s[1..][..n - 1]; }
    }
  }

  /** The first occurrence, seen from the text around it. */
  lemma {:induction false} IndexOfAfter(a: string, c: char, b: string)
    requires !Has(a, c)
    ensures IndexOf(a + [c] + b, c) == |a|
  {
    var s := a + [c] + b;
    if a != "" {
      var rest := a[1..];
      assert s[1..] == rest + [c] + b && s[0] == a[0];
      assert forall i :: 0 <= i < |rest| ==> rest[i] == a[i + 1];
      IndexOfAfter(rest, c, b);
    }
  }

  /** A text is cut in one way only at the first occurrence of a character. */
  lemma CutIsUnique(a: string, b: string, a': string, b': string, c: char)
    requires !Has(a, c) && !Has(a', c) && a + [c] + b == a' + [c] + b'
    ensures a == a' && b == b'
  {
    IndexOfAfter(a, c, b);
    IndexOfAfter(a', c, b');
    var s := a + [c] + b;
    assert a == s[..|a|] && b == s[|a| + 1..];
    assert a' == s[..|a'|] && b' == s[|a'| + 1..];
  }
}
