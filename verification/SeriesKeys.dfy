/** Metric series keys: SeriesKeyString and ParseSeriesKeyString of shared/metricstore/hash.go. */
module SeriesKeys {
  import opened Text

  type Attributes = map<string, string>

  // ---------- Printing ----------

  function Pair(k: string, v: string): string { k + "=" + v }

  function Body(keys: seq<string>, attrs: Attributes): string
    requires forall k :: k in keys ==> k in attrs
  {
    if keys == [] then ""
    else if |keys| == 1 then Pair(keys[0], attrs[keys[0]])
    else Body(keys[..|keys| - 1], attrs) + "," + Pair(keys[|keys| - 1], attrs[keys[|keys| - 1]])
  }

  function Rendered(name: string, keys: seq<string>, attrs: Attributes): string
    requires forall k :: k in keys ==> k in attrs
  {
    if keys == [] then name else name + "{" + Body(keys, attrs) + "}"
  }

  method SeriesKeyString(name: string, attrs: Attributes) returns (r: string)
    ensures forall keys :: Sorts(keys, attrs.Keys) ==> r == Rendered(name, keys, attrs)
  {
    if attrs == map[] {
      forall keys | Sorts(keys, attrs.Keys) ensures keys == [] { SortsIsUnique(keys, []); }
      return name;
    }
    var sorted := SortKeys(attrs.Keys);
    assert sorted != [] by { var k :| k in attrs; assert k in sorted; }
    var b := "";
    var i := 0;
    while i < |sorted|
      invariant i <= |sorted| && b == Body(sorted[..i], attrs)
    {
      assert sorted[..i + 1][..i] == sorted[..i];
      if i > 0 { b := b + ","; }
      b := b + sorted[i] + "=" + attrs[sorted[i]];
      assert b == Body(sorted[..i + 1], attrs);
      i := i + 1;
    }
    assert sorted[..i] == sorted;
    forall keys | Sorts(keys, attrs.Keys) ensures keys == sorted { SortsIsUnique(keys, sorted); }
    return name + "{" + b + "}";
  }

  // ---------- Parsing ----------

  /** strings.Split at commas. */
  function SplitCommas(s: string): seq<string>
    decreases |s|
  {
    IndexOfIs(s, ',');
    var n := IndexOf(s, ',');
    if n < 0 then [s] else [s[..n]] + SplitCommas(s[n + 1..])
  }

  /** One piece: everything up to its first equals sign is the key; a piece without one is skipped. */
  function WithPiece(attrs: Attributes, piece: string): Attributes {
    IndexOfIs(piece, '=');
    var n := IndexOf(piece, '=');
    if n < 0 then attrs else attrs[piece[..n] := piece[n + 1..]]
  }

  function Collect(pieces: seq<string>): Attributes {
    if pieces == [] then map[] else WithPiece(Collect(pieces[..|pieces| - 1]), pieces[|pieces| - 1])
  }

  predicate EndsIn(s: string, c: char) { s != "" && s[|s| - 1] == c }

  predicate HasAttributes(key: string) { Has(key, '{') && EndsIn(key, '}') }

  function Parsed(key: string): (string, Attributes) {
    IndexOfIs(key, '{');
    var n := IndexOf(key, '{');
    if n < 0 || !EndsIn(key, '}') then (key, map[])
    else (key[..n], if key[n + 1..|key| - 1] == "" then map[] else Collect(SplitCommas(key[n + 1..|key| - 1])))
  }

  lemma CollectNext(pieces: seq<string>, i: nat)
    requires i < |pieces|
    ensures Collect(pieces[..i + 1]) == WithPiece(Collect(pieces[..i]), pieces[i])
  {
    assert pieces[..i + 1][..i] == pieces[..i];
  }

  method ParseSeriesKeyString(key: string) returns (name: string, attrs: Attributes)
    ensures (name, attrs) == Parsed(key)
  {
    IndexOfIs(key, '{');
    var n := IndexOf(key, '{');
    attrs := map[];
    if n < 0 || !EndsIn(key, '}') { return key, map[]; }
    name := key[..n];
    var body := key[n + 1..|key| - 1];
    if body == "" { return; }
    var pieces := SplitCommas(body);
    var i := 0;
    while i < |pieces|
      invariant i <= |pieces| && attrs == Collect(pieces[..i])
    {
      CollectNext(pieces, i);
      IndexOfIs(pieces[i], '=');
      var eq := IndexOf(pieces[i], '=');
      if eq >= 0 { attrs := attrs[pieces[i][..eq] := pieces[i][eq + 1..]]; }
      i := i + 1;
    }
    assert pieces[..i] == pieces;
  }

  // ---------- The round trip ----------

  predicate Plain(k: string, v: string) { !Has(k, ',') && !Has(k, '=') && !Has(v, ',') }

  predicate AllPlain(attrs: Attributes) { forall k :: k in attrs ==> Plain(k, attrs[k]) }

  function Pieces(keys: seq<string>, attrs: Attributes): seq<string>
    requires forall k :: k in keys ==> k in attrs
  {
    seq(|keys|, i requires 0 <= i < |keys| => Pair(keys[i], attrs[keys[i]]))
  }

  lemma PairHas(k: string, v: string, c: char)
    requires c != '='
    ensures Has(Pair(k, v), c) <==> Has(k, c) || Has(v, c)
  {
    HasAppend(k + "=", v, c);
    HasAppend(k, "=", c);
    assert !Has("=", c);
  }

  /** Splitting appends: a text, a comma and a last piece without commas. */
  lemma {:induction false} SplitAppend(s: string, last: string)
    requires !Has(last, ',')
    ensures SplitCommas(s + "," + last) == SplitCommas(s) + [last]
    decreases |s|
  {
    var whole := s + "," + last;
    IndexOfIs(s, ',');
    var n := IndexOf(s, ',');
    if n < 0 {
      IndexOfAfter(s, ',', last);
      assert whole == s + [','] + last;
      assert whole[..|s|] == s && whole[|s| + 1..] == last;
      IndexOfIs(last, ',');
    } else {
      var head, tail := s[..n], s[n + 1..];
      assert whole == head + [','] + (tail + "," + last);
      IndexOfAfter(head, ',', tail + "," + last);
      assert whole[..n] == head && whole[n + 1..] == tail + "," + last;
      SplitAppend(tail, last);
    }
  }

  lemma {:induction false} SplitBody(keys: seq<string>, attrs: Attributes)
    requires keys != [] && (forall k :: k in keys ==> k in attrs) && AllPlain(attrs)
    ensures SplitCommas(Body(keys, attrs)) == Pieces(keys, attrs)
  {
    var n := |keys| - 1;
    var last := Pair(keys[n], attrs[keys[n]]);
    assert keys[n] in keys;
    PairHas(keys[n], attrs[keys[n]], ',');
    if n == 0 {
      IndexOfIs(last, ',');
    } else {
      SplitBody(keys[..n], attrs);
      SplitAppend(Body(keys[..n], attrs), last);
      assert Pieces(keys, attrs) == Pieces(keys[..n], attrs) + [last];
    }
  }

  lemma PieceIs(attrs: Attributes, k: string, v: string)
    requires !Has(k, '=')
    ensures WithPiece(attrs, Pair(k, v)) == attrs[k := v]
  {
    var piece := Pair(k, v);
    assert piece == k + ['='] + v;
    IndexOfAfter(k, '=', v);
    assert piece[..|k|] == k && piece[|k| + 1..] == v;
  }

  predicate Collects(got: Attributes, keys: seq<string>, attrs: Attributes)
    requires forall k :: k in keys ==> k in attrs
  {
    (forall k :: k in got ==> k in keys) && (forall k :: k in keys ==> k in got && got[k] == attrs[k])
  }

  lemma {:induction false} CollectPieces(keys: seq<string>, attrs: Attributes)
    requires (forall k :: k in keys ==> k in attrs) && AllPlain(attrs)
    ensures Collects(Collect(Pieces(keys, attrs)), keys, attrs)
  {
    if keys != [] {
      var n := |keys| - 1;
      var front := keys[..n];
      assert keys == front + [keys[n]];
      CollectPieces(front, attrs);
      assert Pieces(keys, attrs)[..n] == Pieces(front, attrs);
      PieceIs(Collect(Pieces(front, attrs)), keys[n], attrs[keys[n]]);
    }
  }

  lemma ParsedRendered(name: string, keys: seq<string>, attrs: Attributes)
    requires keys != [] && (forall k :: k in keys ==> k in attrs) && !Has(name, '{')
    ensures Parsed(Rendered(name, keys, attrs)) == (name, if Body(keys, attrs) == "" then map[] else Collect(SplitCommas(Body(keys, attrs))))
  {
    var key, body := Rendered(name, keys, attrs), Body(keys, attrs);
    assert key == name + ['{'] + (body + "}");
    IndexOfAfter(name, '{', body + "}");
    assert key[..|name|] == name && key[|name| + 1..|key| - 1] == body;
  }

  lemma BodyNotEmpty(keys: seq<string>, attrs: Attributes)
    requires keys != [] && forall k :: k in keys ==> k in attrs
    ensures Body(keys, attrs) != ""
  {
  }

  lemma RoundTrip(name: string, keys: seq<string>, attrs: Attributes)
    requires Sorts(keys, attrs.Keys) && !Has(name, '{') && AllPlain(attrs)
    ensures Parsed(Rendered(name, keys, attrs)) == (name, attrs)
  {
    if keys == [] {
      IndexOfIs(name, '{');
      assert attrs.Keys == {};
    } else {
      BodyNotEmpty(keys, attrs);
      ParsedRendered(name, keys, attrs);
      CollectBody(keys, attrs);
    }
  }

  lemma CollectBody(keys: seq<string>, attrs: Attributes)
    requires Sorts(keys, attrs.Keys) && keys != [] && AllPlain(attrs)
    ensures Collect(SplitCommas(Body(keys, attrs))) == attrs
  {
    SplitBody(keys, attrs);
    CollectPieces(keys, attrs);
    CollectsAll(Collect(Pieces(keys, attrs)), keys, attrs);
  }

  lemma CollectsAll(got: Attributes, keys: seq<string>, attrs: Attributes)
    requires Sorts(keys, attrs.Keys) && Collects(got, keys, attrs)
    ensures got == attrs
  {
    assert got.Keys == attrs.Keys;
  }

  // ---------- When it fails ----------

  /** No piece of a split holds a comma. */
  lemma {:induction false} PiecesHaveNoComma(s: string, i: nat)
    requires i < |SplitCommas(s)|
    ensures !Has(SplitCommas(s)[i], ',')
    decreases |s|
  {
    IndexOfIs(s, ',');
    var n := IndexOf(s, ',');
    if n >= 0 && i > 0 { PiecesHaveNoComma(s[n + 1..], i - 1); }
  }

  lemma PartsHave(s: string, n: nat, c: char)
    requires n < |s| && !Has(s, c)
    ensures !Has(s[..n], c) && !Has(s[n + 1..], c)
  {
    assert forall i :: 0 <= i < n ==> s[..n][i] == s[i];
    var rest := s[n + 1..];
    assert forall i :: 0 <= i < |rest| ==> rest[i] == s[n + 1 + i];
  }

  /** Whatever is parsed is plain. */
  lemma {:induction false} CollectedIsPlain(pieces: seq<string>)
    requires forall i :: 0 <= i < |pieces| ==> !Has(pieces[i], ',')
    ensures AllPlain(Collect(pieces))
  {
    if pieces != [] {
      var n := |pieces| - 1;
      CollectedIsPlain(pieces[..n]);
      IndexOfIs(pieces[n], '=');
      var eq := IndexOf(pieces[n], '=');
      if eq >= 0 { PartsHave(pieces[n], eq, ','); }
    }
  }

  lemma ParsedIsPlain(key: string)
    ensures AllPlain(Parsed(key).1)
    ensures HasAttributes(key) ==> !Has(Parsed(key).0, '{')
  {
    IndexOfIs(key, '{');
    var n := IndexOf(key, '{');
    if n >= 0 && EndsIn(key, '}') {
      var body := key[n + 1..|key| - 1];
      forall i | 0 <= i < |SplitCommas(body)| ensures !Has(SplitCommas(body)[i], ',') { PiecesHaveNoComma(body, i); }
      CollectedIsPlain(SplitCommas(body));
    }
  }

  lemma RenderedHasAttributes(name: string, keys: seq<string>, attrs: Attributes)
    requires keys != [] && forall k :: k in keys ==> k in attrs
    ensures HasAttributes(Rendered(name, keys, attrs))
  {
    var key := Rendered(name, keys, attrs);
    assert key[|name|] == '{';
  }

  /** The keys that survive printing and parsing, exactly. */
  predicate Survives(name: string, attrs: Attributes) {
    if attrs == map[] then !HasAttributes(name) else !Has(name, '{') && AllPlain(attrs)
  }

  /**
   Parsing a printed key gives the name and the attributes back exactly when the name has no brace,
   keys have no comma or equals sign and values no comma (and, with no attributes, the name is not
   itself of the form of a key with attributes).
   */
  lemma RoundTripExactly(name: string, keys: seq<string>, attrs: Attributes)
    requires Sorts(keys, attrs.Keys)
    ensures Parsed(Rendered(name, keys, attrs)) == (name, attrs) <==> Survives(name, attrs)
  {
    var key := Rendered(name, keys, attrs);
    ParsedIsPlain(key);
    if keys == [] {
      assert attrs.Keys == {} && attrs == map[];
      IndexOfIs(name, '{');
      if HasAttributes(name) { assert Has(name, '{') && !Has(Parsed(key).0, '{'); }
    } else {
      assert keys[0] in attrs;
      RenderedHasAttributes(name, keys, attrs);
      if Survives(name, attrs) { RoundTrip(name, keys, attrs); }
    }
  }
}
