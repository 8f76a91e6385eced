/** Format-1 text loses nothing: different canonical evidence reads differently. */
module EvidenceInjective {
  import opened Common
  import opened Text
  import opened Decimal
  import opened EvidenceText

  lemma DigitsHaveNo(n: nat, c: char)
    requires !IsDigit(c)
    ensures !Has(Digits(n), c)
  {
    DigitsRoundTrip(n);
  }

  lemma DigitsInjective(n: nat, m: nat)
    requires Digits(n) == Digits(m)
    ensures n == m
  {
    DigitsRoundTrip(n);
    DigitsRoundTrip(m);
  }

  lemma StripPrefix(p: string, a: string, b: string)
    requires p + a == p + b
    ensures a == b
  {
    assert a == (p + a)[|p|..] && b == (p + b)[|p|..];
  }

  // ---------- The labelled part ----------

  /** Labels that are told apart by the text before their colon. */
  predicate LabelsOk(title: Label, keys: seq<string>) {
    && (forall i :: 0 <= i < |keys| ==> !Has(title(keys[i]), ':'))
    && (forall i, j :: 0 <= i < j < |keys| ==> title(keys[i]) != title(keys[j]))
  }

  predicate SameType(v: Value, w: Value) { v.Flag? == w.Flag? && (v.Number? ==> v.n >= 0) && (w.Number? ==> w.n >= 0) }

  predicate Comparable(e: Evidence, e': Evidence, keys: seq<string>) {
    forall i :: 0 <= i < |keys| ==> keys[i] in e && keys[i] in e' && SameType(e[keys[i]], e'[keys[i]])
  }

  lemma ValueHasNoDot(v: Value)
    requires v.Number? ==> v.n >= 0
    ensures !Has(ValueText(v), '.')
  {
    if v.Number? { DigitsHaveNo(v.n, '.'); }
  }

  lemma ValueInjective(v: Value, w: Value)
    requires SameType(v, w) && ValueText(v) == ValueText(w) && (v.Flag? ==> v.on == w.on)
    ensures v == w
  {
    if v.Number? { DigitsInjective(v.n, w.n); }
  }

  /** A label, its colon and the rest. */
  lemma PieceSplits(title: Label, e: Evidence, k: string, rest: string)
    requires Shown(e, k)
    ensures Piece(title, e, k) + rest == (" " + title(k)) + [':'] + (" " + ValueText(e[k]) + "." + rest)
    ensures Piece(title, e, k) + rest == (" " + title(k) + ": ") + (ValueText(e[k]) + ['.'] + rest)
  {
    Regroups(title(k), ValueText(e[k]), rest);
  }

  lemma Regroups(t: string, v: string, rest: string)
    ensures " " + (t + ": " + v + ".") + rest == (" " + t) + [':'] + (" " + v + "." + rest)
    ensures " " + (t + ": " + v + ".") + rest == (" " + t + ": ") + (v + ['.'] + rest)
  {
    assert ": " == [':'] + " ";
    assert t + ": " + v + "." == t + [':'] + (" " + v + ".");
  }

  lemma {:induction false} TailBegins(title: Label, e: Evidence, keys: seq<string>) returns (i: nat, rest: string)
    requires Tail(title, e, keys) != ""
    ensures i < |keys| && Tail(title, e, keys) == (" " + title(keys[i])) + [':'] + rest
  {
    if Shown(e, keys[0]) {
      PieceSplits(title, e, keys[0], Tail(title, e, keys[1..]));
      i, rest := 0, " " + ValueText(e[keys[0]]) + "." + Tail(title, e, keys[1..]);
    } else {
      var j, r := TailBegins(title, e, keys[1..]);
      i, rest := j + 1, r;
    }
  }

  /** A shown field cannot be mistaken for a later one. */
  lemma ShownTells(title: Label, e: Evidence, e': Evidence, keys: seq<string>)
    requires keys != [] && LabelsOk(title, keys) && Tail(title, e, keys) == Tail(title, e', keys) && Shown(e, keys[0])
    ensures Shown(e', keys[0])
  {
    if !Shown(e', keys[0]) {
      var text := Tail(title, e, keys);
      PieceSplits(title, e, keys[0], Tail(title, e, keys[1..]));
      assert Tail(title, e', keys[1..]) == text;
      var i, rest := TailBegins(title, e', keys[1..]);
      HasAppend(" ", title(keys[0]), ':');
      HasAppend(" ", title(keys[i + 1]), ':');
      assert !Has(" ", ':');
      CutIsUnique(" " + title(keys[0]), " " + ValueText(e[keys[0]]) + "." + Tail(title, e, keys[1..]), " " + title(keys[i + 1]), rest, ':');
      StripPrefix(" ", title(keys[0]), title(keys[i + 1]));
    }
  }

  lemma ValueTells(title: Label, e: Evidence, e': Evidence, k: string, rest: string, rest': string)
    requires Shown(e, k) && Shown(e', k) && SameType(e[k], e'[k])
    requires Piece(title, e, k) + rest == Piece(title, e', k) + rest'
    ensures e[k] == e'[k] && rest == rest'
  {
    PieceSplits(title, e, k, rest);
    PieceSplits(title, e', k, rest');
    StripPrefix(" " + title(k) + ": ", ValueText(e[k]) + ['.'] + rest, ValueText(e'[k]) + ['.'] + rest');
    ValueHasNoDot(e[k]);
    ValueHasNoDot(e'[k]);
    CutIsUnique(ValueText(e[k]), rest, ValueText(e'[k]), rest', '.');
    ValueInjective(e[k], e'[k]);
  }

  lemma HiddenPiece(title: Label, e: Evidence, keys: seq<string>)
    requires keys != [] && !Shown(e, keys[0])
    ensures Tail(title, e, keys) == Tail(title, e, keys[1..])
  {
    assert "" + Tail(title, e, keys[1..]) == Tail(title, e, keys[1..]);
  }

  lemma {:induction false} TailInjective(title: Label, e: Evidence, e': Evidence, keys: seq<string>)
    requires LabelsOk(title, keys) && Comparable(e, e', keys) && Tail(title, e, keys) == Tail(title, e', keys)
    ensures forall i :: 0 <= i < |keys| ==> e[keys[i]] == e'[keys[i]]
  {
    if keys != [] {
      var k, rest := keys[0], keys[1..];
      assert forall i :: 0 <= i < |rest| ==> rest[i] == keys[i + 1];
      if Shown(e, k) { ShownTells(title, e, e', keys); }
      if Shown(e', k) { ShownTells(title, e', e, keys); }
      if Shown(e, k) {
        ValueTells(title, e, e', k, Tail(title, e, rest), Tail(title, e', rest));
      } else {
        HiddenPiece(title, e, keys);
        HiddenPiece(title, e', keys);
      }
      TailInjective(title, e, e', rest);
      forall i | 0 <= i < |keys| ensures e[keys[i]] == e'[keys[i]] {
        if i > 0 { assert keys[i] == rest[i - 1]; }
      }
    }
  }

  // ---------- The head sentences ----------

  lemma CountTells(p: string, n: nat, m: nat, rest: string, rest': string)
    requires !Has(p, '.') && p + Digits(n) + ['.'] + rest == p + Digits(m) + ['.'] + rest'
    ensures n == m && rest == rest'
  {
    DigitsHaveNo(n, '.');
    DigitsHaveNo(m, '.');
    HasAppend(p, Digits(n), '.');
    HasAppend(p, Digits(m), '.');
    CutIsUnique(p + Digits(n), rest, p + Digits(m), rest', '.');
    StripPrefix(p, Digits(n), Digits(m));
    DigitsInjective(n, m);
  }

  lemma RcaHeadInjective(e: Evidence, e': Evidence, tail: string, tail': string)
    requires Get(e, "checks") >= 0 && Get(e, "failures") >= 0 && Get(e', "checks") >= 0 && Get(e', "failures") >= 0
    requires Head(Rca, e) + tail == Head(Rca, e') + tail'
    ensures Get(e, "checks") == Get(e', "checks") && Get(e, "failures") == Get(e', "failures") && tail == tail'
  {
    RcaHeadParts(e, tail);
    RcaHeadParts(e', tail');
    assert !Has("Checks: ", '.') && !Has(" Failed observations: ", '.');
    CountTells("Checks: ", Get(e, "checks"), Get(e', "checks"), RcaRest(e, tail), RcaRest(e', tail'));
    CountTells(" Failed observations: ", Get(e, "failures"), Get(e', "failures"), tail, tail');
  }

  function RcaRest(e: Evidence, tail: string): string
    requires Get(e, "failures") >= 0
  {
    " Failed observations: " + Digits(Get(e, "failures")) + ['.'] + tail
  }

  lemma RcaHeadParts(e: Evidence, tail: string)
    requires Get(e, "checks") >= 0 && Get(e, "failures") >= 0
    ensures Head(Rca, e) + tail == "Checks: " + Digits(Get(e, "checks")) + ['.'] + RcaRest(e, tail)
  {
    var a, b := Digits(Get(e, "checks")), Digits(Get(e, "failures"));
    assert ". Failed observations: " == ['.'] + " Failed observations: ";
    assert "Checks: " + a + ". Failed observations: " + b + "." + tail == "Checks: " + a + ['.'] + (" Failed observations: " + b + ['.'] + tail);
  }

  lemma PairHeadInjective(e: Evidence, e': Evidence, tail: string, tail': string)
    requires Get(e, "co_fires") >= 0 && Get(e', "co_fires") >= 0
    requires Head(Dependency, e) + tail == Head(Dependency, e') + tail'
    ensures Get(e, "co_fires") == Get(e', "co_fires") && Get(e, "a_leads_seconds") == Get(e', "a_leads_seconds") && tail == tail'
  {
    PairHeadParts(e, tail);
    PairHeadParts(e', tail');
    assert !Has("Co-firing windows: ", '.');
    CountTells("Co-firing windows: ", Get(e, "co_fires"), Get(e', "co_fires"), PairRest(e, tail), PairRest(e', tail'));
    StripPrefix(" ", Direction(Get(e, "a_leads_seconds")) + tail, Direction(Get(e', "a_leads_seconds")) + tail');
    DirectionTells(Get(e, "a_leads_seconds"), Get(e', "a_leads_seconds"), tail, tail');
  }

  function PairRest(e: Evidence, tail: string): string { " " + (Direction(Get(e, "a_leads_seconds")) + tail) }

  lemma PairHeadParts(e: Evidence, tail: string)
    requires Get(e, "co_fires") >= 0
    ensures Head(Dependency, e) + tail == "Co-firing windows: " + Digits(Get(e, "co_fires")) + ['.'] + PairRest(e, tail)
  {
  }

  lemma DirectionFirst(lead: int)
    ensures Direction(lead) != "" && Direction(lead)[0] == if lead > 0 then 'A' else if lead < 0 then 'B' else 'N'
  {
  }

  lemma SecondsTell(p: string, n: nat, m: nat, tail: string, tail': string)
    requires p + Digits(n) + " seconds." + tail == p + Digits(m) + " seconds." + tail'
    ensures n == m && tail == tail'
  {
    var r, r' := "seconds." + tail, "seconds." + tail';
    assert " seconds." == [' '] + "seconds.";
    assert p + Digits(n) + " seconds." + tail == p + (Digits(n) + [' '] + r);
    assert p + Digits(m) + " seconds." + tail' == p + (Digits(m) + [' '] + r');
    StripPrefix(p, Digits(n) + [' '] + r, Digits(m) + [' '] + r');
    DigitsHaveNo(n, ' ');
    DigitsHaveNo(m, ' ');
    CutIsUnique(Digits(n), r, Digits(m), r', ' ');
    DigitsInjective(n, m);
    StripPrefix("seconds.", tail, tail');
  }

  lemma DirectionTells(lead: int, lead': int, tail: string, tail': string)
    requires Direction(lead) + tail == Direction(lead') + tail'
    ensures lead == lead' && tail == tail'
  {
    DirectionFirst(lead);
    DirectionFirst(lead');
    assert (Direction(lead) + tail)[0] == Direction(lead)[0] && (Direction(lead') + tail')[0] == Direction(lead')[0];
    if lead > 0 {
      SecondsTell("A precedes B by ", lead, lead', tail, tail');
    } else if lead < 0 {
      SecondsTell("B precedes A by ", -lead, -lead', tail, tail');
    } else {
      StripPrefix("No clear time direction.", tail, tail');
    }
  }

  // ---------- The whole text ----------

  /** Canonical evidence: every field present, typed and within bounds. */
  predicate IsCanonical(s: Schema, e: Evidence) {
    e.Keys == Fields(s) && forall k :: k in e ==> ValueOk(s, k, e[k])
  }

  lemma CanonicalIs(task: Task, e: Evidence)
    requires PythonAccepts(task, e)
    ensures IsCanonical(SchemaOf(task), Canonical(SchemaOf(task), e))
  {
    CanonicalFor(SchemaOf(task), e);
  }

  lemma CanonicalFor(s: Schema, e: Evidence)
    requires forall k :: k in e ==> ValueOk(s, k, e[k])
    ensures IsCanonical(s, Canonical(s, e))
  {
    var c := Canonical(s, e);
    forall k | k in c ensures ValueOk(s, k, c[k]) {}
  }

  lemma KeysComparable(s: Schema, e: Evidence, e': Evidence, keys: seq<string>)
    requires IsCanonical(s, e) && IsCanonical(s, e') && Sorts(keys, Labelled(s)) && "a_leads_seconds" !in Labelled(s)
    ensures Comparable(e, e', keys)
  {
    forall i | 0 <= i < |keys| ensures keys[i] in e && keys[i] in e' && SameType(e[keys[i]], e'[keys[i]]) {
      assert keys[i] in keys && keys[i] in Labelled(s);
    }
  }

  lemma AllFieldsEqual(s: Schema, e: Evidence, e': Evidence, keys: seq<string>)
    requires IsCanonical(s, e) && IsCanonical(s, e') && Sorts(keys, Labelled(s)) && s.heads !! Labelled(s)
    requires forall i :: 0 <= i < |keys| ==> keys[i] in e && keys[i] in e' && e[keys[i]] == e'[keys[i]]
    requires forall k :: k in s.heads ==> Get(e, k) == Get(e', k)
    ensures e == e'
  {
    forall k | k in e ensures e[k] == e'[k] {
      if k in Labelled(s) {
        assert k in keys;
      } else {
        assert k in s.heads;
      }
    }
  }

  lemma Count(s: Schema, e: Evidence, k: string)
    requires IsCanonical(s, e) && k in s.heads && s.heads !! Labelled(s) && k != "a_leads_seconds"
    ensures Get(e, k) >= 0
  {
    assert k in e;
  }

  lemma RcaTextInjective(e: Evidence, e': Evidence, keys: seq<string>, s: Schema)
    requires s == SchemaOf(Rca) && IsCanonical(s, e) && IsCanonical(s, e') && Sorts(keys, Labelled(s)) && LabelsOk(Spaced, keys)
    requires StateText(Rca, e, keys) == StateText(Rca, e', keys)
    ensures e == e'
  {
    RcaSchema();
    RcaCounts(s, e);
    RcaCounts(s, e');
    RcaHeadInjective(e, e', Tail(Spaced, e, keys), Tail(Spaced, e', keys));
    KeysComparable(s, e, e', keys);
    TailInjective(Spaced, e, e', keys);
    RcaHeadsEqual(s, e, e');
    AllFieldsEqual(s, e, e', keys);
  }

  lemma RcaCounts(s: Schema, e: Evidence)
    requires s == SchemaOf(Rca) && IsCanonical(s, e)
    ensures Get(e, "checks") >= 0 && Get(e, "failures") >= 0
  {
    RcaSchema();
    Count(s, e, "checks");
    Count(s, e, "failures");
  }

  lemma RcaHeadsEqual(s: Schema, e: Evidence, e': Evidence)
    requires s == SchemaOf(Rca) && Get(e, "checks") == Get(e', "checks") && Get(e, "failures") == Get(e', "failures")
    ensures forall k :: k in s.heads ==> Get(e, k) == Get(e', k)
  {
  }

  lemma PairTextInjective(e: Evidence, e': Evidence, keys: seq<string>, s: Schema)
    requires s == SchemaOf(Dependency) && IsCanonical(s, e) && IsCanonical(s, e') && Sorts(keys, Labelled(s)) && LabelsOk(PairLabel, keys)
    requires StateText(Dependency, e, keys) == StateText(Dependency, e', keys)
    ensures e == e'
  {
    PairSchema();
    Count(s, e, "co_fires");
    Count(s, e', "co_fires");
    PairHeadInjective(e, e', Tail(PairLabel, e, keys), Tail(PairLabel, e', keys));
    KeysComparable(s, e, e', keys);
    TailInjective(PairLabel, e, e', keys);
    AllFieldsEqual(s, e, e', keys);
  }

  // ---------- The labels of the two tasks ----------

  predicate PlainKey(k: string) { forall i :: 0 <= i < |k| ==> k[i] != ' ' && k[i] != ':' }

  lemma SpacedTells(k: string, m: string)
    requires PlainKey(k) && PlainKey(m)
    ensures !Has(Spaced(k), ':') && (Spaced(k) == Spaced(m) ==> k == m)
  {
    if Spaced(k) == Spaced(m) {
      assert |k| == |Spaced(k)| == |Spaced(m)| == |m|;
      forall i | 0 <= i < |k| ensures k[i] == m[i] { assert Spaced(k)[i] == Spaced(m)[i]; }
    }
  }

  lemma RcaNumbersPlain()
    ensures forall k :: k in RCA_NUMBERS ==> PlainKey(k)
  {
  }

  lemma RcaFlagsPlain()
    ensures forall k :: k in RCA_FLAGS ==> PlainKey(k)
  {
  }

  lemma RcaLabelsOk(keys: seq<string>)
    requires Sorts(keys, Labelled(SchemaOf(Rca)))
    ensures LabelsOk(Spaced, keys)
  {
    RcaNumbersPlain();
    RcaFlagsPlain();
    forall i | 0 <= i < |keys| ensures PlainKey(keys[i]) { assert keys[i] in keys; }
    forall i | 0 <= i < |keys| ensures !Has(Spaced(keys[i]), ':') { SpacedTells(keys[i], keys[i]); }
    forall i, j | 0 <= i < j < |keys| ensures Spaced(keys[i]) != Spaced(keys[j]) {
      SpacedTells(keys[i], keys[j]);
      LessTotal(keys[i], keys[j]);
    }
  }

  lemma PairLabelTells(k: string, m: string)
    requires k in Labelled(SchemaOf(Dependency)) && m in Labelled(SchemaOf(Dependency)) && k != m
    ensures PairLabel(k) != PairLabel(m)
  {
    var a, b := PairLabel(k), PairLabel(m);
    assert |"Reverse-direction windows"| == 25 && |"Shared service tag"| == 18 && |"Shared group"| == 12;
    assert |"Shared naming token"| == 19 && |"Known common upstream"| == 21;
  }

  lemma PairLabelPlain(k: string)
    ensures !Has(PairLabel(k), ':')
  {
  }

  lemma PairLabelsOk(keys: seq<string>)
    requires Sorts(keys, Labelled(SchemaOf(Dependency)))
    ensures LabelsOk(PairLabel, keys)
  {
    forall i | 0 <= i < |keys| ensures !Has(PairLabel(keys[i]), ':') { PairLabelPlain(keys[i]); }
    forall i, j | 0 <= i < j < |keys| ensures PairLabel(keys[i]) != PairLabel(keys[j]) {
      LessTotal(keys[i], keys[j]);
      assert keys[i] in keys && keys[j] in keys;
      PairLabelTells(keys[i], keys[j]);
    }
  }

  /** Different canonical evidence never reads the same, in either task. */
  lemma TextInjective(task: Task, e: Evidence, e': Evidence, keys: seq<string>)
    requires IsCanonical(SchemaOf(task), e) && IsCanonical(SchemaOf(task), e') && Sorts(keys, Labelled(SchemaOf(task)))
    requires StateText(task, e, keys) == StateText(task, e', keys)
    ensures e == e'
  {
    match task
    case Rca =>
      RcaLabelsOk(keys);
      RcaTextInjective(e, e', keys, SchemaOf(Rca));
    case Dependency =>
      PairLabelsOk(keys);
      PairTextInjective(e, e', keys, SchemaOf(Dependency));
  }
}
