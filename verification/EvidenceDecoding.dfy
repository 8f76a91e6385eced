/**
 The two validators on a JSON object as it arrives: decodeEvidence of shared/ai/labelexport.go, whose
 decoder matches struct fields without regard to case, and validate_evidence of
 ai-service/probara_ai/contract.py, which looks keys up in a dict.
 */
module EvidenceDecoding {
  import opened Common
  import opened EvidenceText

  /** One member of the object, in text order. */
  datatype Member = Member(key: string, value: Value)

  predicate DistinctKeys(raw: seq<Member>) { forall i, j :: 0 <= i < j < |raw| ==> raw[i].key != raw[j].key }

  predicate HasKey(raw: seq<Member>, k: string) { exists i :: 0 <= i < |raw| && raw[i].key == k }

  // ---------- Python ----------

  function Dict(raw: seq<Member>): Evidence {
    if raw == [] then map[] else Dict(raw[..|raw| - 1])[raw[|raw| - 1].key := raw[|raw| - 1].value]
  }

  // ---------- Go ----------

  /** The folding of encoding/json: ASCII case, and the two other characters that fold to ASCII letters. */
  function FoldChar(c: char): char {
    if 'A' <= c <= 'Z' then (c as int + 32) as char
    else if c == '\U{17F}' then 's' else if c == '\U{212A}' then 'k' else c
  }

  /** A letter folds to its small form, the long s and the Kelvin sign to the letters they stand for, and the rest to itself. */
  lemma FoldMeans(c: char)
    ensures var upper, lower := "ABCDEFGHIJKLMNOPQRSTUVWXYZ\U{17F}\U{212A}", "abcdefghijklmnopqrstuvwxyzsk";
            && (forall k :: 0 <= k < 28 && c == upper[k] ==> FoldChar(c) == lower[k])
            && ((forall k :: 0 <= k < 28 ==> c != upper[k]) ==> FoldChar(c) == c)
  {
    var upper, lower := "ABCDEFGHIJKLMNOPQRSTUVWXYZ\U{17F}\U{212A}", "abcdefghijklmnopqrstuvwxyzsk";
    assert forall k :: 0 <= k < 26 ==> upper[k] as int == 'A' as int + k && lower[k] as int == 'a' as int + k;
    assert upper[26] == '\U{17F}' && upper[27] == '\U{212A}' && lower[26] == 's' && lower[27] == 'k';
    if 'A' <= c <= 'Z' { assert upper[c as int - 'A' as int] == c; }
  }

  function Fold(k: string): string { seq(|k|, i requires 0 <= i < |k| => FoldChar(k[i])) }

  /** The struct field a key decodes into: the one of that name, else the one of that folded name. */
  function FieldOf(s: Schema, k: string): Option<string> {
    if k in Fields(s) then Some(k) else if Fold(k) in Fields(s) then Some(Fold(k)) else None
  }

  /** A struct's int holds 64 bits. */
  predicate TypeOk(s: Schema, field: string, v: Value) {
    if field in s.flags then v.Flag? else v.Number? && -0x8000_0000_0000_0000 <= v.n < 0x8000_0000_0000_0000
  }

  /** No unknown field and no type error. */
  predicate Decodes(s: Schema, m: Member) { FieldOf(s, m.key).Some? && TypeOk(s, FieldOf(s, m.key).value, m.value) }

  predicate AllDecode(s: Schema, raw: seq<Member>) { forall i :: 0 <= i < |raw| ==> Decodes(s, raw[i]) }

  /** The struct after decoding: zero values, overwritten in text order. */
  function Struct(s: Schema, raw: seq<Member>): Evidence {
    if raw == [] then Canonical(s, map[])
    else
      var m, before := raw[|raw| - 1], Struct(s, raw[..|raw| - 1]);
      if FieldOf(s, m.key).Some? then before[FieldOf(s, m.key).value := m.value] else before
  }

  /** The rca counts are looked up under their exact names. */
  predicate CountsNamed(task: Task, raw: seq<Member>) { task == Rca ==> HasKey(raw, "checks") && HasKey(raw, "failures") }

  function GoDecodes(task: Task, s: Schema, raw: seq<Member>): Option<Evidence> {
    if !CountsNamed(task, raw) || !AllDecode(s, raw) then None
    else
      var fields := Struct(s, raw);
      if !AllInBounds(fields) then None
      else if task == Rca && Get(fields, "failures") > Get(fields, "checks") then None
      else Some(fields)
  }

  // ---------- Go accepts the object that Python would read with every key spelled exactly ----------

  function Spelling(s: Schema, k: string): string { if FieldOf(s, k).Some? then FieldOf(s, k).value else k }

  function Respelled(s: Schema, raw: seq<Member>): seq<Member> {
    seq(|raw|, i requires 0 <= i < |raw| => Member(Spelling(s, raw[i].key), raw[i].value))
  }

  /** Every key is a field's exact name. */
  predicate AllExact(s: Schema, raw: seq<Member>) { forall i :: 0 <= i < |raw| ==> raw[i].key in Fields(s) }

  lemma ExactIsRespelled(s: Schema, raw: seq<Member>)
    requires AllExact(s, raw)
    ensures Respelled(s, raw) == raw
  {
  }

  lemma {:induction false} DictKeys(raw: seq<Member>, k: string)
    ensures k in Dict(raw) <==> HasKey(raw, k)
    ensures k in Dict(raw) ==> Member(k, Dict(raw)[k]) in raw
  {
    if raw != [] {
      var front, last := raw[..|raw| - 1], raw[|raw| - 1];
      assert raw == front + [last];
      DictKeys(front, k);
      if i :| 0 <= i < |front| && front[i].key == k { assert raw[i].key == k; }
      if i :| 0 <= i < |raw| && raw[i].key == k && i < |front| { assert front[i].key == k; }
    }
  }

  lemma {:induction false} DictHolds(raw: seq<Member>, i: nat)
    requires DistinctKeys(raw) && i < |raw|
    ensures raw[i].key in Dict(raw) && Dict(raw)[raw[i].key] == raw[i].value
  {
    if i < |raw| - 1 {
      var front := raw[..|raw| - 1];
      assert front[i] == raw[i];
      DictHolds(front, i);
    }
  }

  lemma {:induction false} StructIsCanonical(s: Schema, raw: seq<Member>)
    requires AllDecode(s, raw)
    ensures Struct(s, raw) == Canonical(s, Dict(Respelled(s, raw)))
  {
    if raw != [] {
      var front, m := raw[..|raw| - 1], raw[|raw| - 1];
      StructIsCanonical(s, front);
      var now := Respelled(s, raw);
      assert now[..|now| - 1] == Respelled(s, front);
      CanonicalWith(s, Dict(Respelled(s, front)), Spelling(s, m.key), m.value);
    }
  }

  lemma CanonicalWith(s: Schema, e: Evidence, k: string, v: Value)
    requires k in Fields(s)
    ensures Canonical(s, e[k := v]) == Canonical(s, e)[k := v]
  {
  }

  lemma DecodedTypes(s: Schema, raw: seq<Member>)
    requires AllDecode(s, raw)
    ensures Dict(Respelled(s, raw)).Keys <= Fields(s) && TypesOk(s, Dict(Respelled(s, raw)))
  {
    var now := Respelled(s, raw);
    forall k | k in Dict(now) ensures k in Fields(s) && (if k in s.flags then Dict(now)[k].Flag? else Dict(now)[k].Number?) {
      DictKeys(now, k);
      var i :| 0 <= i < |now| && now[i] == Member(k, Dict(now)[k]);
      assert Decodes(s, raw[i]);
    }
  }

  lemma NamedIsRespelled(s: Schema, raw: seq<Member>, k: string)
    requires k in Fields(s) && HasKey(raw, k)
    ensures k in Dict(Respelled(s, raw))
  {
    var i :| 0 <= i < |raw| && raw[i].key == k;
    assert Respelled(s, raw)[i].key == k;
    DictKeys(Respelled(s, raw), k);
  }

  /** Go accepts an object exactly when it names the counts, every member decodes, and Python accepts it respelled. */
  lemma GoIsPythonRespelled(task: Task, raw: seq<Member>)
    ensures var s := SchemaOf(task);
            && (GoDecodes(task, s, raw).Some? <==>
                CountsNamed(task, raw) && AllDecode(s, raw) && PythonAccepts(task, Dict(Respelled(s, raw))))
            && (GoDecodes(task, s, raw).Some? ==> GoDecodes(task, s, raw).value == Canonical(s, Dict(Respelled(s, raw))))
  {
    var s := SchemaOf(task);
    if CountsNamed(task, raw) && AllDecode(s, raw) { DecodedAgrees(task, s, raw, Dict(Respelled(s, raw))); }
  }

  lemma DecodedAgrees(task: Task, s: Schema, raw: seq<Member>, e: Evidence)
    requires CountsNamed(task, raw) && AllDecode(s, raw) && e == Dict(Respelled(s, raw)) && s == SchemaOf(task)
    ensures GoDecodes(task, s, raw) == if PythonAcceptsBy(task, s, e) then Some(Canonical(s, e)) else None
  {
    StructIsCanonical(s, raw);
    DecodedTypes(s, raw);
    CanonicalBounds(s, e);
    if task == Rca {
      assert "checks" in RCA_COUNTS && "failures" in RCA_COUNTS;
      NamedIsRespelled(s, raw, "checks");
      NamedIsRespelled(s, raw, "failures");
    }
  }

  // ---------- Where they agree ----------

  lemma AcceptedIsExact(task: Task, raw: seq<Member>)
    requires PythonAccepts(task, Dict(raw))
    ensures AllExact(SchemaOf(task), raw) && CountsNamed(task, raw)
    ensures DistinctKeys(raw) ==> AllDecode(SchemaOf(task), raw)
  {
    forall i | 0 <= i < |raw| ensures raw[i].key in Fields(SchemaOf(task)) {
      assert HasKey(raw, raw[i].key);
      DictKeys(raw, raw[i].key);
    }
    DictKeys(raw, "checks");
    DictKeys(raw, "failures");
    if DistinctKeys(raw) {
      forall i | 0 <= i < |raw| ensures Decodes(SchemaOf(task), raw[i]) { DictHolds(raw, i); }
    }
  }

  /**
   What Go accepts with every key in its exact spelling is what Python accepts, apart from a repeated key
   whose overwritten value has the wrong type: Go rejects that. Go's canonical form is then Python's dict filled in.
   */
  lemma PythonIsExactGo(task: Task, raw: seq<Member>)
    ensures var s := SchemaOf(task);
            && (PythonAccepts(task, Dict(raw)) && AllDecode(s, raw) <==> GoDecodes(task, s, raw).Some? && AllExact(s, raw))
            && (PythonAccepts(task, Dict(raw)) && DistinctKeys(raw) ==> AllDecode(s, raw))
            && (PythonAccepts(task, Dict(raw)) && AllDecode(s, raw) ==> GoDecodes(task, s, raw).value == Canonical(s, Dict(raw)))
  {
    GoIsPythonRespelled(task, raw);
    if PythonAccepts(task, Dict(raw)) { AcceptedIsExact(task, raw); }
    if AllExact(SchemaOf(task), raw) { ExactIsRespelled(SchemaOf(task), raw); }
  }

  /**
   The validators disagree in two ways only: some key is in another spelling and the object respelled is
   acceptable, or every key is exact, the object is acceptable, and an overwritten value has the wrong type.
   */
  lemma ValidatorsAgree(task: Task, raw: seq<Member>)
    ensures var s := SchemaOf(task);
            (GoDecodes(task, s, raw).Some? <==> PythonAccepts(task, Dict(raw))) <==>
            (if AllExact(s, raw) then PythonAccepts(task, Dict(raw)) ==> AllDecode(s, raw)
             else !(CountsNamed(task, raw) && AllDecode(s, raw) && PythonAccepts(task, Dict(Respelled(s, raw)))))
  {
    PythonIsExactGo(task, raw);
    GoIsPythonRespelled(task, raw);
    if PythonAccepts(task, Dict(raw)) { AcceptedIsExact(task, raw); }
  }

  // ---------- Two objects ----------

  const ONE_CHECK := Member("checks", Number(1))
  const NO_FAILURE := Member("failures", Number(0))
  const CONFLICT := Member("conflict", Flag(true))

  lemma SmallAccepted(e: Evidence)
    requires e == map["checks" := Number(1), "failures" := Number(0), "conflict" := Flag(true)]
    ensures PythonAccepts(Rca, e)
  {
    assert "conflict" in RCA_FLAGS && "checks" in RCA_COUNTS && "failures" in RCA_COUNTS;
    assert "checks" !in RCA_FLAGS && "failures" !in RCA_FLAGS;
    assert e.Keys == {"checks", "failures", "conflict"};
    assert e["failures"] == Number(0) && e["checks"] == Number(1);
  }

  lemma SmallDict(raw: seq<Member>)
    requires raw == [ONE_CHECK, NO_FAILURE, CONFLICT] || raw == [ONE_CHECK, NO_FAILURE, Member("conflict", Number(1)), CONFLICT]
    ensures Dict(raw) == map["checks" := Number(1), "failures" := Number(0), "conflict" := Flag(true)]
  {
    var two := [ONE_CHECK, NO_FAILURE];
    assert two[..1] == [ONE_CHECK] && [ONE_CHECK][..0] == [];
    assert Dict([ONE_CHECK]) == map["checks" := Number(1)];
    assert Dict(two) == map["checks" := Number(1), "failures" := Number(0)];
    if |raw| == 3 { assert raw[..2] == two; } else { assert raw[..3][..2] == two; }
  }

  /** {"checks": 1, "failures": 0, "conflict": 1, "conflict": true}: Python accepts it, Go rejects it. */
  lemma RepeatMatters() returns (raw: seq<Member>)
    ensures PythonAccepts(Rca, Dict(raw)) && GoDecodes(Rca, SchemaOf(Rca), raw).None?
  {
    raw := [ONE_CHECK, NO_FAILURE, Member("conflict", Number(1)), CONFLICT];
    SmallDict(raw);
    SmallAccepted(Dict(raw));
    assert "conflict" in RCA_FLAGS;
    assert !Decodes(SchemaOf(Rca), raw[2]);
  }

  /** {"checks": 1, "failures": 0, "Conflict": true}: Go accepts it, Python rejects it. */
  lemma CaseMatters() returns (raw: seq<Member>)
    ensures DistinctKeys(raw) && GoDecodes(Rca, SchemaOf(Rca), raw).Some? && !PythonAccepts(Rca, Dict(raw))
  {
    raw := [ONE_CHECK, NO_FAILURE, Member("Conflict", Flag(true))];
    var s := SchemaOf(Rca);
    assert raw[0].key == "checks" && raw[1].key == "failures" && raw[2].key == "Conflict";
    ConflictFolds();
    SmallFields();
    assert Respelled(s, raw) == [ONE_CHECK, NO_FAILURE, CONFLICT];
    SmallDict(Respelled(s, raw));
    SmallAccepted(Dict(Respelled(s, raw)));
    assert HasKey(raw, "checks") && HasKey(raw, "failures");
    assert !AllExact(s, raw);
    PythonIsExactGo(Rca, raw);
    GoIsPythonRespelled(Rca, raw);
  }

  lemma SmallFields()
    ensures var s := SchemaOf(Rca); Decodes(s, ONE_CHECK) && Decodes(s, NO_FAILURE)
    ensures FieldOf(SchemaOf(Rca), "checks") == Some("checks") && FieldOf(SchemaOf(Rca), "failures") == Some("failures")
  {
    assert "checks" in RCA_COUNTS && "failures" in RCA_COUNTS && "checks" !in RCA_FLAGS && "failures" !in RCA_FLAGS;
  }

  lemma ConflictFolds()
    ensures "Conflict" !in Fields(SchemaOf(Rca)) && "conflict" in RCA_FLAGS
    ensures FieldOf(SchemaOf(Rca), "Conflict") == Some("conflict")
  {
    assert Fold("Conflict") == "conflict";
    assert "Conflict"[0] == 'C';
  }
}
