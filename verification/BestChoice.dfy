/** best of shared/ai/catalogue.go: the top choice of one answer, found by walking a Go map. */
module BestChoice {
  import opened Text
  import opened Decisions

  datatype Top = Top(key: string, score: real)

  function Seen(top: Top, k: string, p: real): Top {
    if p > top.score || (p == top.score && (top.key == "" || Less(k, top.key))) then Top(k, p) else top
  }

  /** The result of one walk of the map. */
  function Walked(m: map<string, real>, order: seq<string>): Top
    requires forall k :: k in order ==> k in m
  {
    if order == [] then Top("", 0.0)
    else Seen(Walked(m, order[..|order| - 1]), order[|order| - 1], m[order[|order| - 1]])
  }

  ghost predicate IsWalked(m: map<string, real>, top: Top) { exists order :: Walks(order, m.Keys) && top == Walked(m, order) }

  /** Some walk's result; without a tie at the empty key, the least of the most probable keys. */
  method Best(m: map<string, real>) returns (top: Top)
    ensures IsWalked(m, top)
    ensures Positive(m) && !BlankTie(m) && m.Keys != {} ==> IsBest(m, top)
  {
    top := Top("", 0.0);
    ghost var order: seq<string> := [];
    var left := m.Keys;
    while left != {}
      invariant left <= m.Keys && Walks(order, m.Keys - left) && top == Walked(m, order)
      decreases |left|
    {
      var k :| k in left;
      var p := m[k];
      ghost var before := order;
      order := order + [k];
      assert order[..|order| - 1] == before;
      assert forall x :: x in order <==> x in before || x == k;
      if p > top.score || (p == top.score && (top.key == "" || Less(k, top.key))) {
        top := Top(k, p);
      }
      left := left - {k};
    }
    assert m.Keys - left == m.Keys;
    if Positive(m) && !BlankTie(m) && m.Keys != {} { BestIsWellDefined(m, order); }
  }

  predicate Positive(m: map<string, real>) { forall k :: k in m ==> m[k] >= 0.0 }

  predicate AtTop(m: map<string, real>, k: string) { k in m && forall j :: j in m ==> m[j] <= m[k] }

  /** The empty key shares the maximum with another key. */
  predicate BlankTie(m: map<string, real>) { AtTop(m, "") && exists k :: k in m && k != "" && m[k] == m[""] }

  /** The least key among those with the highest probability. */
  predicate IsBest(m: map<string, real>, top: Top) {
    && AtTop(m, top.key) && m[top.key] == top.score
    && forall k :: k in m && m[k] == top.score ==> k == top.key || Less(top.key, k)
  }

  /** The walk so far: a maximum of what was seen and, once it is the overall maximum, the least such key. */
  ghost predicate SoFar(m: map<string, real>, seen: seq<string>, top: Top) {
    if seen == [] then top == Top("", 0.0)
    else
      && top.key in seen && top.key in m && m[top.key] == top.score
      && (forall k :: k in seen ==> k in m && m[k] <= top.score)
      && (AtTop(m, top.key) ==> forall k :: k in seen && k in m && m[k] == top.score ==> k == top.key || Less(top.key, k))
  }

  lemma SeenKeeps(m: map<string, real>, seen: seq<string>, top: Top, k: string)
    requires Positive(m) && !BlankTie(m) && SoFar(m, seen, top) && k in m && k !in seen
    ensures SoFar(m, seen + [k], Seen(top, k, m[k]))
  {
    LessTotal(k, top.key);
    var next := Seen(top, k, m[k]);
    if seen != [] && AtTop(m, next.key) {
      forall j | j in seen + [k] && j in m && m[j] == next.score ensures j == next.key || Less(next.key, j) {
        LessTotal(j, next.key);
        if next.key == k && j != k {
          assert j in seen && m[j] <= top.score;
          if j != top.key { LessTransitive(k, top.key, j); }
        }
      }
    }
  }

  lemma {:induction false} WalkedSoFar(m: map<string, real>, order: seq<string>)
    requires Positive(m) && !BlankTie(m) && Distinct(order) && forall k :: k in order ==> k in m
    ensures SoFar(m, order, Walked(m, order))
  {
    if order != [] {
      var front := order[..|order| - 1];
      assert order == front + [order[|order| - 1]];
      WalkedSoFar(m, front);
      SeenKeeps(m, front, Walked(m, front), order[|order| - 1]);
    }
  }

  /** Every walk finds the least of the top keys, unless the empty key ties at the top. */
  lemma BestIsWellDefined(m: map<string, real>, order: seq<string>)
    requires Positive(m) && !BlankTie(m) && Walks(order, m.Keys) && m.Keys != {}
    ensures IsBest(m, Walked(m, order))
  {
    WalkedSoFar(m, order);
    var k :| k in m;
    assert k in order;
  }

  lemma BestIsUnique(m: map<string, real>, x: Top, y: Top)
    requires IsBest(m, x) && IsBest(m, y)
    ensures x == y
  {
    LessTotal(x.key, y.key);
  }

  /** The walk order does not matter, exactly when the empty key does not tie at the top. */
  lemma OrderIndependence(m: map<string, real>)
    requires Positive(m)
    ensures !BlankTie(m) <==> forall a, b :: Walks(a, m.Keys) && Walks(b, m.Keys) ==> Walked(m, a) == Walked(m, b)
  {
    if BlankTie(m) {
      var a, b := TieDependsOnOrder(m);
    } else {
      forall a, b | Walks(a, m.Keys) && Walks(b, m.Keys) ensures Walked(m, a) == Walked(m, b) {
        if m.Keys == {} {
          WalkHead(a, m.Keys);
          WalkHead(b, m.Keys);
        } else {
          BestIsWellDefined(m, a);
          BestIsWellDefined(m, b);
          BestIsUnique(m, Walked(m, a), Walked(m, b));
        }
      }
    }
  }

  lemma {:induction false} WalkExists(keys: set<string>) returns (order: seq<string>)
    ensures Walks(order, keys)
    decreases |keys|
  {
    if keys == {} {
      order := [];
    } else {
      var k :| k in keys;
      var rest := WalkExists(keys - {k});
      order := rest + [k];
      assert forall x :: x in order <==> x in rest || x == k;
    }
  }

  /** The empty key seen last wins the tie; seen first it loses it. */
  lemma TieDependsOnOrder(m: map<string, real>) returns (a: seq<string>, b: seq<string>)
    requires Positive(m) && BlankTie(m)
    ensures Walks(a, m.Keys) && Walks(b, m.Keys) && Walked(m, a) != Walked(m, b)
  {
    var rest := WalkExists(m.Keys - {""});
    a, b := rest + [""], [""] + rest;
    assert forall x :: x in a <==> x in rest || x == "";
    assert forall x :: x in b <==> x in rest || x == "";
    BlankLast(m, rest);
    BlankFirst(m, rest);
  }

  lemma BlankLast(m: map<string, real>, rest: seq<string>)
    requires Positive(m) && BlankTie(m) && Walks(rest, m.Keys - {""})
    ensures Walked(m, rest + [""]).key == ""
  {
    var n := m - {""};
    SameWalk(m, n, rest);
    WalkedSoFar(n, rest);
    assert (rest + [""])[..|rest|] == rest;
    var k :| k in m && k != "" && m[k] == m[""];
    assert k in n && k in rest;
    var top := Walked(m, rest);
    assert top.key in rest && top.key != "";
    assert Less("", top.key);
  }

  lemma {:induction false} SameWalk(m: map<string, real>, n: map<string, real>, order: seq<string>)
    requires forall k :: k in order ==> k in m && k in n && m[k] == n[k]
    ensures Walked(m, order) == Walked(n, order)
  {
    if order != [] { SameWalk(m, n, order[..|order| - 1]); }
  }

  /** With the empty key first, any later key at the same maximum replaces it for good. */
  lemma {:induction false} BlankFirst(m: map<string, real>, rest: seq<string>)
    requires AtTop(m, "") && Positive(m) && forall k :: k in rest ==> k in m && k != ""
    ensures Walked(m, [""] + rest).score == m[""]
    ensures Walked(m, [""] + rest).key == "" <==> forall k :: k in rest ==> m[k] < m[""]
  {
    var order := [""] + rest;
    if rest == [] {
      assert order == [""] && order[..0] == [];
    } else {
      var front, last := rest[..|rest| - 1], rest[|rest| - 1];
      assert rest == front + [last];
      assert order[..|order| - 1] == [""] + front;
      BlankFirst(m, front);
    }
  }
}
